/**
 The live-job cache of feature_jobs.py: an insertion-ordered dictionary trimmed by size, in which a job is pinned
 while a run, a referenced build or an event waiter holds it.
 */
module JobCache {
  import opened Prelude

  /** One cached job: the identity of the object, not its contents. */
  datatype Entry = Entry(id: string, obj: nat)

  // ----- the ordered dictionary -----

  function Lookup(cache: seq<Entry>, id: string): Option<nat> {
    if cache == [] then None else if cache[0].id == id then Some(cache[0].obj) else Lookup(cache[1..], id)
  }

  function Without(cache: seq<Entry>, ids: set<string>): (rest: seq<Entry>)
    ensures forall e :: e in rest <==> e in cache && e.id !in ids
  {
    if cache == [] then []
    else if cache[0].id in ids then Without(cache[1..], ids)
    else [cache[0]] + Without(cache[1..], ids)
  }

  function Only(cache: seq<Entry>, ids: set<string>): (rest: seq<Entry>)
    ensures forall e :: e in rest <==> e in cache && e.id in ids
  {
    if cache == [] then []
    else if cache[0].id in ids then [cache[0]] + Only(cache[1..], ids)
    else Only(cache[1..], ids)
  }

  function Ids(cache: seq<Entry>): (ids: set<string>)
    ensures forall id :: id in ids <==> exists e :: e in cache && e.id == id
  {
    set e | e in cache :: e.id
  }

  ghost predicate Unique(cache: seq<Entry>) {
    forall i, j :: 0 <= i < j < |cache| ==> cache[i].id != cache[j].id
  }

  lemma {:induction false} LookupIn(cache: seq<Entry>, id: string)
    requires Unique(cache)
    ensures Lookup(cache, id).Some? <==> id in Ids(cache)
    ensures forall obj: nat :: Lookup(cache, id) == Some(obj) <==> Entry(id, obj) in cache
  {
    if cache != [] {
      LookupIn(cache[1..], id);
      assert cache == [cache[0]] + cache[1..];
    }
  }

  lemma {:induction false} UniqueWithout(cache: seq<Entry>, ids: set<string>)
    requires Unique(cache)
    ensures Unique(Without(cache, ids))
  {
    if cache != [] {
      UniqueWithout(cache[1..], ids);
      assert forall e :: e in cache[1..] ==> e.id != cache[0].id;
    }
  }

  lemma {:induction false} UniqueOnly(cache: seq<Entry>, ids: set<string>)
    requires Unique(cache)
    ensures Unique(Only(cache, ids))
  {
    if cache != [] {
      UniqueOnly(cache[1..], ids);
      assert forall e :: e in cache[1..] ==> e.id != cache[0].id;
    }
  }

  // ----- trimming -----

  function Total(cache: seq<Entry>, size: nat -> nat): nat {
    if cache == [] then 0 else size(cache[0].obj) + Total(cache[1..], size)
  }

  /** How many to drop from the front until the rest fits. */
  function Excess(cache: seq<Entry>, size: nat -> nat, budget: nat): (k: nat)
    ensures k <= |cache|
  {
    if Total(cache, size) <= budget then 0 else 1 + Excess(cache[1..], size, budget)
  }

  lemma {:induction false} ExcessIsLeast(cache: seq<Entry>, size: nat -> nat, budget: nat)
    ensures Total(cache[Excess(cache, size, budget)..], size) <= budget
    ensures forall j :: 0 <= j < Excess(cache, size, budget) ==> Total(cache[j..], size) > budget
  {
    if Total(cache, size) > budget {
      var rest := cache[1..];
      ExcessIsLeast(rest, size, budget);
      var k := Excess(rest, size, budget);
      assert cache[k + 1..] == rest[k..];
      forall j | 0 <= j < k + 1 ensures Total(cache[j..], size) > budget {
        if j > 0 { assert cache[j..] == rest[j - 1..]; }
      }
    } else {
      assert cache[0..] == cache;
    }
  }

  /** The unpinned entries that go, oldest first. */
  function Evicted(cache: seq<Entry>, pinned: set<string>, size: nat -> nat, budget: nat): seq<Entry> {
    var history := Without(cache, pinned);
    history[..Excess(history, size, budget)]
  }

  function Trim(cache: seq<Entry>, pinned: set<string>, size: nat -> nat, budget: nat): seq<Entry> {
    Without(cache, Ids(Evicted(cache, pinned, size, budget)))
  }

  lemma {:induction false} WithoutComposes(cache: seq<Entry>, a: set<string>, b: set<string>)
    ensures Without(Without(cache, a), b) == Without(cache, a + b)
  {
    if cache != [] { WithoutComposes(cache[1..], a, b); }
  }

  lemma {:induction false} DropPrefix(cache: seq<Entry>, k: nat)
    requires Unique(cache) && k <= |cache|
    ensures Without(cache, Ids(cache[..k])) == cache[k..]
  {
    if k == 0 {
      WithoutNothing(cache, Ids(cache[..0]));
    } else {
      var rest := cache[1..];
      UniqueRest(cache);
      IdsFirst(cache, k);
      hide Unique, Without, Ids;
      DropPrefix(rest, k - 1);
      assert rest[k - 1..] == cache[k..];
      WithoutAbsent(rest, Ids(rest[..k - 1]), cache[0].id);
      WithoutFirst(cache, Ids(cache[..k]));
    }
  }

  lemma IdsFirst(cache: seq<Entry>, k: nat)
    requires 0 < k <= |cache|
    ensures Ids(cache[..k]) == Ids(cache[1..][..k - 1]) + {cache[0].id}
  {
    assert cache[..k] == [cache[0]] + cache[1..][..k - 1];
  }

  lemma UniqueRest(cache: seq<Entry>)
    requires Unique(cache) && cache != []
    ensures Unique(cache[1..]) && forall e :: e in cache[1..] ==> e.id != cache[0].id
  {
  }

  lemma WithoutFirst(cache: seq<Entry>, ids: set<string>)
    requires cache != [] && cache[0].id in ids
    ensures Without(cache, ids) == Without(cache[1..], ids)
  {
  }

  lemma {:induction false} WithoutNothing(cache: seq<Entry>, ids: set<string>)
    requires forall e :: e in cache ==> e.id !in ids
    ensures Without(cache, ids) == cache
  {
    if cache != [] {
      assert cache[0] in cache;
      WithoutNothing(cache[1..], ids);
    }
  }

  lemma {:induction false} WithoutAbsent(cache: seq<Entry>, ids: set<string>, id: string)
    requires forall e :: e in cache ==> e.id != id
    ensures Without(cache, ids + {id}) == Without(cache, ids)
  {
    if cache != [] {
      assert cache[0] in cache;
      WithoutAbsent(cache[1..], ids, id);
    }
  }

  /** A trim drops the shortest run of least recently used unpinned jobs after which the unpinned ones fit, and
      leaves every other entry where it was. */
  lemma TrimIsShortest(cache: seq<Entry>, pinned: set<string>, size: nat -> nat, budget: nat)
    requires Unique(cache)
    ensures var after := Trim(cache, pinned, size, budget); var history := Without(cache, pinned);
            var k := Excess(history, size, budget);
            && Unique(after)
            && (forall e :: e in after <==> e in cache && e !in history[..k])
            && Without(after, pinned) == history[k..] && Total(history[k..], size) <= budget
            && (forall j :: 0 <= j < k ==> Total(history[j..], size) > budget)
            && Only(after, pinned) == Only(cache, pinned)
  {
    var history := Without(cache, pinned);
    var k := Excess(history, size, budget);
    var gone := Ids(history[..k]);
    ExcessIsLeast(history, size, budget);
    UniqueWithout(cache, gone);
    UniqueWithout(cache, pinned);
    WithoutComposes(cache, gone, pinned);
    WithoutComposes(cache, pinned, gone);
    assert gone + pinned == pinned + gone;
    DropPrefix(history, k);
    forall e | e in cache ensures e.id in gone <==> e in history[..k] {
      if e.id in gone {
        var g :| g in history[..k] && g.id == e.id;
        assert g in history && g in cache;
        var i :| 0 <= i < |cache| && cache[i] == e;
        var j :| 0 <= j < |cache| && cache[j] == g;
      }
    }
    assert forall e :: e in history[..k] ==> e in history;
    OnlyWithout(cache, pinned, gone);
  }

  lemma {:induction false} OnlyWithout(cache: seq<Entry>, keep: set<string>, gone: set<string>)
    requires keep !! gone
    ensures Only(Without(cache, gone), keep) == Only(cache, keep)
  {
    if cache != [] { OnlyWithout(cache[1..], keep, gone); }
  }

  // ----- the threads -----

  /** What a thread is in the middle of, and the job object it works with. A referenced build inserts its job in
      one lock region and pins it in the next; `intact` says whether it was still the cached one at the pin. */
  datatype Hold =
    | Running(id: string, obj: nat)
    | Waiting(id: string, obj: nat)
    | Inserted(id: string, obj: nat)
    | Building(id: string, obj: nat, intact: bool)

  datatype State = State(cache: seq<Entry>, active: map<string, nat>, waiters: map<string, nat>, holds: map<nat, Hold>, next: nat)

  datatype Action =
    | StartRun(thread: nat, id: string, stored: bool, complete: bool)
    | EndRun(thread: nat)
    | Insert(thread: nat, id: string)
    | PinBuild(thread: nat)
    | EndBuild(thread: nat)
    | StartWait(thread: nat, id: string, stored: bool, behind: bool)
    | EndWait(thread: nat)
    | Use(id: string, stored: bool)
    | Refresh(id: string, stored: bool, settled: bool)
    | FailedUnit(uses: seq<string>)

  /** One lock region, with the size each job has when it runs; `budget` is none without persistence. */
  datatype Turn = Turn(action: Action, size: nat -> nat)

  function Pinned(s: State): set<string> { s.active.Keys + s.waiters.Keys }

  function Fit(budget: Option<nat>, cache: seq<Entry>, pinned: set<string>, size: nat -> nat): seq<Entry> {
    if budget.None? then cache else Trim(cache, pinned, size, budget.value)
  }

  /** The job, found or hydrated, as the most recent one. */
  function Moved(s: State, id: string): State {
    match Lookup(s.cache, id)
    case Some(obj) => s.(cache := Without(s.cache, {id}) + [Entry(id, obj)])
    case None => s.(cache := Without(s.cache, {id}) + [Entry(id, s.next)], next := s.next + 1)
  }

  /** `_job`: makes the job the most recent one and trims the others. */
  function Access(budget: Option<nat>, s: State, id: string, stored: bool, size: nat -> nat): Option<State> {
    if Lookup(s.cache, id).None? && !stored then None else Some(Trimmed(budget, Moved(s, id), {id}, size))
  }

  function AccessAll(budget: Option<nat>, s: State, ids: seq<string>, size: nat -> nat): State
    decreases |ids|
  {
    if ids == [] then s
    else match Access(budget, s, ids[0], true, size)
      case Some(r) => AccessAll(budget, r, ids[1..], size)
      case None => s
  }

  function Bump(counts: map<string, nat>, id: string): map<string, nat> {
    counts[id := (if id in counts then counts[id] else 0) + 1]
  }

  function Release(counts: map<string, nat>, id: string): map<string, nat>
    requires id in counts
  {
    if counts[id] > 1 then counts[id := counts[id] - 1] else counts - {id}
  }

  predicate Holding(s: State, t: nat) { t in s.holds }

  predicate Enabled(s: State, a: Action) {
    match a
    case StartRun(t, _, _, _) => !Holding(s, t)
    case StartWait(t, _, _, _) => !Holding(s, t)
    case Insert(t, id) => !Holding(s, t) && Lookup(s.cache, id).None?
    case EndRun(t) => Holding(s, t) && s.holds[t].Running? && s.holds[t].id in s.active
    case EndBuild(t) => Holding(s, t) && s.holds[t].Building? && s.holds[t].id in s.active
    case PinBuild(t) => Holding(s, t) && s.holds[t].Inserted?
    case EndWait(t) => Holding(s, t) && s.holds[t].Waiting? && s.holds[t].id in s.waiters
    case _ => true
  }

  function Entered(s: State, t: nat, id: string, waiting: bool): State
    requires Lookup(s.cache, id).Some?
  {
    var obj := Lookup(s.cache, id).value;
    if waiting then s.(waiters := Bump(s.waiters, id), holds := s.holds[t := Waiting(id, obj)])
    else s.(active := Bump(s.active, id), holds := s.holds[t := Running(id, obj)])
  }

  function Trimmed(budget: Option<nat>, s: State, keep: set<string>, size: nat -> nat): State {
    s.(cache := Fit(budget, s.cache, Pinned(s) + keep, size))
  }

  function Step(budget: Option<nat>, s: State, turn: Turn): State
    requires Enabled(s, turn.action)
  {
    var size := turn.size;
    match turn.action
    case StartRun(t, id, stored, complete) =>
      (match Access(budget, s, id, stored, size)
       case None => s
       case Some(r) => if complete && Lookup(r.cache, id).Some? then Entered(r, t, id, false) else r)
    case EndRun(t) =>
      var r := s.(active := Release(s.active, s.holds[t].id), holds := s.holds - {t});
      Trimmed(budget, r, {}, size)
    case Insert(t, id) => s.(cache := s.cache + [Entry(id, s.next)], next := s.next + 1, holds := s.holds[t := Inserted(id, s.next)])
    case PinBuild(t) =>
      var h := s.holds[t];
      s.(active := Bump(s.active, h.id), holds := s.holds[t := Building(h.id, h.obj, Lookup(s.cache, h.id) == Some(h.obj))])
    case EndBuild(t) => s.(active := Release(s.active, s.holds[t].id), holds := s.holds - {t})
    case StartWait(t, id, stored, behind) =>
      (match Access(budget, s, id, stored, size)
       case None => s
       case Some(r) => if behind && Lookup(r.cache, id).Some? then Entered(r, t, id, true) else r)
    case EndWait(t) =>
      var r := s.(waiters := Release(s.waiters, s.holds[t].id), holds := s.holds - {t});
      Trimmed(budget, r, {}, size)
    case Use(id, stored) => (match Access(budget, s, id, stored, size) case None => s case Some(r) => r)
    case Refresh(id, stored, settled) =>
      // in place when the job is cached and nobody works on it, else the copy is left alone or hydrated
      var found := Lookup(s.cache, id);
      if !stored || (found.Some? && settled) || id in s.active then s
      else if found.Some? then Trimmed(budget, s, {id}, size)
      else Trimmed(budget, s.(cache := s.cache + [Entry(id, s.next)], next := s.next + 1), {id}, size)
    case FailedUnit(uses) =>
      var r := AccessAll(budget, s, uses, size);
      r.(cache := Only(r.cache, Ids(s.cache)))
  }

  // ----- what every step keeps -----

  function Workers(s: State, id: string): set<nat> {
    set t | t in s.holds && s.holds[t].id == id && (s.holds[t].Running? || s.holds[t].Building?)
  }

  function Listeners(s: State, id: string): set<nat> {
    set t | t in s.holds && s.holds[t].id == id && s.holds[t].Waiting?
  }

  /** A count stands for a set of threads: positive, and their number, or absent when there are none. */
  ghost predicate Counts(counts: map<string, nat>, id: string, threads: set<nat>) {
    if id in counts then counts[id] == |threads| > 0 else threads == {}
  }

  /** Reference counts are positive exactly while someone is inside, and count them. */
  ghost predicate Counted(s: State) {
    forall id :: Counts(s.active, id, Workers(s, id)) && Counts(s.waiters, id, Listeners(s, id))
  }

  /** The thread's object is the cached one. */
  predicate Live(s: State, h: Hold) { Entry(h.id, h.obj) in s.cache }

  ghost predicate Served(s: State) {
    forall t :: t in s.holds ==>
      match s.holds[t]
      case Running(_, _) => Live(s, s.holds[t])
      case Waiting(_, _) => Live(s, s.holds[t])
      case Building(_, _, intact) => Live(s, s.holds[t]) <==> intact
      case Inserted(_, _) => true
  }

  ghost predicate Dated(s: State) {
    && (forall e :: e in s.cache ==> e.obj < s.next)
    && forall t :: t in s.holds ==> s.holds[t].obj < s.next
  }

  ghost predicate Inv(s: State) { Unique(s.cache) && Counted(s) && Served(s) && Dated(s) }

  /** For pinned jobs the cache holds the same objects of old. */
  ghost predicate Steady(s: State, r: State, pinned: set<string>) {
    && Unique(r.cache) && s.next <= r.next && (forall e :: e in r.cache ==> e.obj < r.next)
    && forall id, obj :: id in pinned && 0 <= obj < s.next ==> (Entry(id, obj) in s.cache <==> Entry(id, obj) in r.cache)
  }

  lemma FitIsSteady(budget: Option<nat>, s: State, keep: set<string>, size: nat -> nat)
    requires Unique(s.cache) && (forall e :: e in s.cache ==> e.obj < s.next)
    ensures var r := Trimmed(budget, s, keep, size);
            && Steady(s, r, Pinned(s) + keep) && (forall e :: e in r.cache ==> e in s.cache)
            && (forall e :: e in s.cache && e.id in Pinned(s) + keep ==> e in r.cache)
  {
    if budget.Some? {
      var pinned := Pinned(s) + keep;
      TrimIsShortest(s.cache, pinned, size, budget.value);
      assert forall e :: e in s.cache && e.id in pinned ==> e in Only(s.cache, pinned);
    }
  }

  lemma MovedIsSteady(s: State, id: string)
    requires Unique(s.cache) && forall e :: e in s.cache ==> e.obj < s.next
    ensures var r := Moved(s, id);
            && Steady(s, r, Pinned(s)) && Lookup(r.cache, id).Some?
            && (Lookup(s.cache, id).Some? ==> Lookup(r.cache, id) == Lookup(s.cache, id))
  {
    LookupIn(s.cache, id);
    UniqueWithout(s.cache, {id});
    var r := Moved(s, id);
    var e := r.cache[|r.cache| - 1];
    assert Unique(r.cache) && e in r.cache;
    LookupIn(r.cache, id);
    assert Lookup(r.cache, id) == Some(e.obj);
  }

  lemma SteadyThrough(s: State, m: State, r: State, pinned: set<string>)
    requires Steady(s, m, pinned) && Steady(m, r, pinned)
    ensures Steady(s, r, pinned)
  {
  }

  lemma AccessIsSteady(budget: Option<nat>, s: State, id: string, stored: bool, size: nat -> nat)
    requires Unique(s.cache) && (forall e :: e in s.cache ==> e.obj < s.next) && Access(budget, s, id, stored, size).Some?
    ensures var r := Access(budget, s, id, stored, size).value;
            && Steady(s, r, Pinned(s)) && r.active == s.active && r.waiters == s.waiters && r.holds == s.holds
            && Lookup(r.cache, id).Some? && Entry(id, Lookup(r.cache, id).value) in r.cache
            && (Lookup(s.cache, id).Some? ==> Lookup(r.cache, id) == Lookup(s.cache, id))
  {
    hide Lookup, Fit;
    var m := Moved(s, id);
    var r := Trimmed(budget, m, {id}, size);
    MovedIsSteady(s, id);
    FitIsSteady(budget, m, {id}, size);
    SteadyThrough(s, m, r, Pinned(s));
    LookupIn(m.cache, id);
    LookupIn(r.cache, id);
    assert Entry(id, Lookup(m.cache, id).value) in m.cache;
  }

  lemma {:induction false} AccessAllIsSteady(budget: Option<nat>, s: State, ids: seq<string>, size: nat -> nat)
    requires Unique(s.cache) && forall e :: e in s.cache ==> e.obj < s.next
    ensures var r := AccessAll(budget, s, ids, size);
            Steady(s, r, Pinned(s)) && r.active == s.active && r.waiters == s.waiters && r.holds == s.holds
    decreases |ids|
  {
    if ids != [] {
      var r := Access(budget, s, ids[0], true, size);
      AccessIsSteady(budget, s, ids[0], true, size);
      AccessAllIsSteady(budget, r.value, ids[1..], size);
      SteadyThrough(s, r.value, AccessAll(budget, s, ids, size), Pinned(s));
    }
  }

  /** A failed unit takes back the jobs first cached inside it and no object that was there before. */
  lemma FailedUnitIsSteady(budget: Option<nat>, s: State, uses: seq<string>, size: nat -> nat)
    requires Unique(s.cache) && forall e :: e in s.cache ==> e.obj < s.next
    ensures var r := AccessAll(budget, s, uses, size); Steady(s, r.(cache := Only(r.cache, Ids(s.cache))), Pinned(s))
  {
    var r := AccessAll(budget, s, uses, size);
    AccessAllIsSteady(budget, s, uses, size);
    UniqueOnly(r.cache, Ids(s.cache));
  }

  /** Any step that leaves the pins alone and the pinned objects in place. */
  lemma SteadyKeepsInv(s: State, r: State)
    requires Inv(s) && Steady(s, r, Pinned(s)) && r.active == s.active && r.waiters == s.waiters && r.holds == s.holds
    ensures Inv(r)
  {
    assert forall id :: Workers(r, id) == Workers(s, id) && Listeners(r, id) == Listeners(s, id);
    forall t | t in s.holds && !s.holds[t].Inserted? ensures s.holds[t].id in Pinned(s) {
      assert t in Workers(s, s.holds[t].id) || t in Listeners(s, s.holds[t].id);
    }
  }

  lemma BumpCounts(counts: map<string, nat>, entered: string, id: string, threads: set<nat>, t: nat)
    requires Counts(counts, id, threads) && t !in threads
    ensures Counts(Bump(counts, entered), id, if id == entered then threads + {t} else threads)
  {
  }

  lemma ReleaseCounts(counts: map<string, nat>, left: string, id: string, threads: set<nat>, t: nat)
    requires Counts(counts, id, threads) && left in counts && (id == left ==> t in threads)
    ensures Counts(Release(counts, left), id, if id == left then threads - {t} else threads)
  {
    if id == left { assert |threads - {t}| == |threads| - 1; }
  }

  predicate Works(h: Hold, id: string) { h.id == id && (h.Running? || h.Building?) }

  predicate Listens(h: Hold, id: string) { h.id == id && h.Waiting? }

  lemma WithThread(s: State, r: State, t: nat, h: Hold, id: string)
    requires r.holds == s.holds[t := h] && (t in s.holds ==> s.holds[t].Inserted?)
    ensures Workers(r, id) == if Works(h, id) then Workers(s, id) + {t} else Workers(s, id)
    ensures Listeners(r, id) == if Listens(h, id) then Listeners(s, id) + {t} else Listeners(s, id)
    ensures t !in Workers(s, id) && t !in Listeners(s, id)
  {
    assert forall k :: k in Workers(r, id) <==> k in Workers(s, id) || (k == t && Works(h, id));
    assert forall k :: k in Listeners(r, id) <==> k in Listeners(s, id) || (k == t && Listens(h, id));
  }

  lemma WithoutThread(s: State, r: State, t: nat, id: string)
    requires t in s.holds && r.holds == s.holds - {t}
    ensures Workers(r, id) == if Works(s.holds[t], id) then Workers(s, id) - {t} else Workers(s, id)
    ensures Listeners(r, id) == if Listens(s.holds[t], id) then Listeners(s, id) - {t} else Listeners(s, id)
    ensures (t in Workers(s, id) <==> Works(s.holds[t], id)) && (t in Listeners(s, id) <==> Listens(s.holds[t], id))
  {
    assert forall k :: k in Workers(r, id) <==> k in Workers(s, id) && k != t;
    assert forall k :: k in Listeners(r, id) <==> k in Listeners(s, id) && k != t;
  }

  lemma EnterKeepsCounts(s: State, r: State, t: nat, h: Hold)
    requires Counted(s) && !h.Inserted? && (t in s.holds ==> s.holds[t].Inserted?) && r.holds == s.holds[t := h]
    requires r.active == if h.Waiting? then s.active else Bump(s.active, h.id)
    requires r.waiters == if h.Waiting? then Bump(s.waiters, h.id) else s.waiters
    ensures Counted(r)
  {
    hide Counts, Workers, Listeners, Bump;
    forall id ensures Counts(r.active, id, Workers(r, id)) && Counts(r.waiters, id, Listeners(r, id)) {
      WithThread(s, r, t, h, id);
      BumpCounts(s.active, h.id, id, Workers(s, id), t);
      BumpCounts(s.waiters, h.id, id, Listeners(s, id), t);
    }
  }

  lemma LeaveKeepsCounts(s: State, r: State, t: nat)
    requires Counted(s) && t in s.holds && !s.holds[t].Inserted? && r.holds == s.holds - {t}
    requires if s.holds[t].Waiting? then s.holds[t].id in s.waiters else s.holds[t].id in s.active
    requires r.active == if s.holds[t].Waiting? then s.active else Release(s.active, s.holds[t].id)
    requires r.waiters == if s.holds[t].Waiting? then Release(s.waiters, s.holds[t].id) else s.waiters
    ensures Counted(r)
  {
    hide Counts, Workers, Listeners, Release;
    var h := s.holds[t];
    forall id ensures Counts(r.active, id, Workers(r, id)) && Counts(r.waiters, id, Listeners(r, id)) {
      WithoutThread(s, r, t, id);
      if h.Waiting? { ReleaseCounts(s.waiters, h.id, id, Listeners(s, id), t); }
      else { ReleaseCounts(s.active, h.id, id, Workers(s, id), t); }
    }
  }

  /** A thread that finds work inside is counted there. */
  lemma CountedInside(s: State, t: nat)
    requires Counted(s) && t in s.holds && !s.holds[t].Inserted?
    ensures if s.holds[t].Waiting? then s.holds[t].id in s.waiters else s.holds[t].id in s.active
  {
    assert if s.holds[t].Waiting? then t in Listeners(s, s.holds[t].id) else t in Workers(s, s.holds[t].id);
    assert Counts(s.active, s.holds[t].id, Workers(s, s.holds[t].id)) && Counts(s.waiters, s.holds[t].id, Listeners(s, s.holds[t].id));
  }

  lemma EnteredKeepsInv(s: State, t: nat, id: string, waiting: bool)
    requires Inv(s) && t !in s.holds && Lookup(s.cache, id).Some?
    ensures Inv(Entered(s, t, id, waiting))
  {
    hide Bump;
    var r := Entered(s, t, id, waiting);
    LookupIn(s.cache, id);
    EnterKeepsCounts(s, r, t, r.holds[t]);
  }

  lemma LeftKeepsInv(s: State, t: nat, r: State)
    requires Inv(s) && t in s.holds && !s.holds[t].Inserted? && r.holds == s.holds - {t} && r.cache == s.cache && r.next == s.next
    requires if s.holds[t].Waiting? then s.holds[t].id in s.waiters else s.holds[t].id in s.active
    requires r.active == if s.holds[t].Waiting? then s.active else Release(s.active, s.holds[t].id)
    requires r.waiters == if s.holds[t].Waiting? then Release(s.waiters, s.holds[t].id) else s.waiters
    ensures Inv(r)
  {
    LeaveKeepsCounts(s, r, t);
  }

  lemma TrimmedKeepsInv(budget: Option<nat>, s: State, keep: set<string>, size: nat -> nat)
    requires Inv(s)
    ensures Inv(Trimmed(budget, s, keep, size))
  {
    FitIsSteady(budget, s, keep, size);
    SteadyKeepsInv(s, Trimmed(budget, s, keep, size));
  }

  lemma AddedKeepsInv(s: State, id: string)
    requires Inv(s) && Lookup(s.cache, id).None?
    ensures Inv(s.(cache := s.cache + [Entry(id, s.next)], next := s.next + 1))
  {
    LookupIn(s.cache, id);
    var r := s.(cache := s.cache + [Entry(id, s.next)], next := s.next + 1);
    assert Unique(r.cache);
    SteadyKeepsInv(s, r);
  }

  lemma InsertedKeepsInv(s: State, t: nat, h: Hold)
    requires Inv(s) && t !in s.holds && h.Inserted? && h.obj < s.next
    ensures Inv(s.(holds := s.holds[t := h]))
  {
    var r := s.(holds := s.holds[t := h]);
    forall id ensures Counts(r.active, id, Workers(r, id)) && Counts(r.waiters, id, Listeners(r, id)) {
      WithThread(s, r, t, h, id);
    }
  }

  lemma PinKeepsInv(s: State, t: nat, r: State)
    requires Inv(s) && t in s.holds && s.holds[t].Inserted?
    requires r == s.(active := Bump(s.active, s.holds[t].id),
                     holds := s.holds[t := Building(s.holds[t].id, s.holds[t].obj, Lookup(s.cache, s.holds[t].id) == Some(s.holds[t].obj))])
    ensures Inv(r)
  {
    hide Bump;
    LookupIn(s.cache, s.holds[t].id);
    EnterKeepsCounts(s, r, t, r.holds[t]);
  }

  /** Every lock region keeps every pinned thread's object in the cache. */
  lemma StepKeepsInv(budget: Option<nat>, s: State, turn: Turn)
    requires Inv(s) && Enabled(s, turn.action)
    ensures Inv(Step(budget, s, turn))
  {
    hide Lookup, Bump, Release, Inv, Moved, Trimmed, Counted, Served;
    var size := turn.size;
    match turn.action
    case StartRun(t, id, stored, complete) =>
      AccessKeepsInv(budget, s, id, stored, size);
      var r := Access(budget, s, id, stored, size);
      if r.Some? && complete && Lookup(r.value.cache, id).Some? { EnteredKeepsInv(r.value, t, id, false); }
    case StartWait(t, id, stored, behind) =>
      AccessKeepsInv(budget, s, id, stored, size);
      var r := Access(budget, s, id, stored, size);
      if r.Some? && behind && Lookup(r.value.cache, id).Some? { EnteredKeepsInv(r.value, t, id, true); }
    case EndRun(t) =>
      var r := s.(active := Release(s.active, s.holds[t].id), holds := s.holds - {t});
      LeftKeepsInv(s, t, r);
      TrimmedKeepsInv(budget, r, {}, size);
    case EndWait(t) =>
      var r := s.(waiters := Release(s.waiters, s.holds[t].id), holds := s.holds - {t});
      LeftKeepsInv(s, t, r);
      TrimmedKeepsInv(budget, r, {}, size);
    case EndBuild(t) => LeftKeepsInv(s, t, s.(active := Release(s.active, s.holds[t].id), holds := s.holds - {t}));
    case Insert(t, id) =>
      AddedKeepsInv(s, id);
      InsertedKeepsInv(s.(cache := s.cache + [Entry(id, s.next)], next := s.next + 1), t, Inserted(id, s.next));
    case PinBuild(t) => PinKeepsInv(s, t, Step(budget, s, turn));
    case Use(id, stored) => AccessKeepsInv(budget, s, id, stored, size);
    case Refresh(id, stored, settled) =>
      if stored && Lookup(s.cache, id).None? { AddedKeepsInv(s, id); }
      if Lookup(s.cache, id).Some? { TrimmedKeepsInv(budget, s, {id}, size); }
      else if stored { TrimmedKeepsInv(budget, s.(cache := s.cache + [Entry(id, s.next)], next := s.next + 1), {id}, size); }
    case FailedUnit(uses) => UnitKeepsInv(budget, s, uses, size);
  }

  lemma UnitKeepsInv(budget: Option<nat>, s: State, uses: seq<string>, size: nat -> nat)
    requires Inv(s)
    ensures var r := AccessAll(budget, s, uses, size); Inv(r.(cache := Only(r.cache, Ids(s.cache))))
  {
    FailedUnitIsSteady(budget, s, uses, size);
    AccessAllIsSteady(budget, s, uses, size);
    var r := AccessAll(budget, s, uses, size);
    SteadyKeepsInv(s, r.(cache := Only(r.cache, Ids(s.cache))));
  }

  lemma AccessKeepsInv(budget: Option<nat>, s: State, id: string, stored: bool, size: nat -> nat)
    requires Inv(s)
    ensures Access(budget, s, id, stored, size).Some? ==>
              var r := Access(budget, s, id, stored, size).value; Inv(r) && r.holds == s.holds
  {
    if Access(budget, s, id, stored, size).Some? {
      AccessIsSteady(budget, s, id, stored, size);
      SteadyKeepsInv(s, Access(budget, s, id, stored, size).value);
    }
  }

  // ----- whole runs -----

  /** A lock region whose turn has not come does not happen. */
  function Run(budget: Option<nat>, s: State, turns: seq<Turn>): State
    decreases |turns|
  {
    if turns == [] then s
    else Run(budget, if Enabled(s, turns[0].action) then Step(budget, s, turns[0]) else s, turns[1..])
  }

  lemma {:induction false} RunKeepsInv(budget: Option<nat>, s: State, turns: seq<Turn>)
    requires Inv(s)
    ensures Inv(Run(budget, s, turns))
    decreases |turns|
  {
    hide Inv, Step;
    if turns != [] {
      if Enabled(s, turns[0].action) { StepKeepsInv(budget, s, turns[0]); }
      RunKeepsInv(budget, if Enabled(s, turns[0].action) then Step(budget, s, turns[0]) else s, turns[1..]);
    }
  }

  const COLD := State([], map[], map[], map[], 0)

  /** Across trims, refreshes, rollbacks and other threads: a running or waiting thread works with the very object
      the cache holds for its job, and a job is pinned exactly while some thread is inside. */
  lemma PinnedIsLive(budget: Option<nat>, turns: seq<Turn>, t: nat)
    ensures var s := Run(budget, COLD, turns);
            && (t in s.holds && (s.holds[t].Running? || s.holds[t].Waiting?) ==> Lookup(s.cache, s.holds[t].id) == Some(s.holds[t].obj))
            && (forall id :: id in s.active <==> Workers(s, id) != {}) && (forall id :: id in s.waiters <==> Listeners(s, id) != {})
            && (forall id :: id in s.active ==> s.active[id] == |Workers(s, id)|)
  {
    RunKeepsInv(budget, COLD, turns);
    var s := Run(budget, COLD, turns);
    assert forall id :: Counts(s.active, id, Workers(s, id)) && Counts(s.waiters, id, Listeners(s, id));
    if t in s.holds { LookupIn(s.cache, s.holds[t].id); }
  }

  predicate Ends(a: Action, t: nat) {
    match a case EndRun(k) => k == t case EndBuild(k) => k == t case EndWait(k) => k == t case _ => false
  }

  lemma StepKeepsHold(budget: Option<nat>, s: State, turn: Turn, t: nat)
    requires Inv(s) && Enabled(s, turn.action) && t in s.holds && !s.holds[t].Inserted? && !Ends(turn.action, t)
    ensures t in Step(budget, s, turn).holds && Step(budget, s, turn).holds[t] == s.holds[t]
  {
    hide Lookup, Bump, Release, Inv, Moved, Fit;
    match turn.action
    case FailedUnit(uses) => AccessAllKeepsHolds(budget, s, uses, turn.size);
    case _ => MovedKeepsHolds(s);
  }

  lemma MovedKeepsHolds(s: State)
    ensures forall id :: Moved(s, id).holds == s.holds
  {
  }

  lemma {:induction false} AccessAllKeepsHolds(budget: Option<nat>, s: State, ids: seq<string>, size: nat -> nat)
    ensures AccessAll(budget, s, ids, size).holds == s.holds
    decreases |ids|
  {
    if ids != [] {
      var r := Access(budget, s, ids[0], true, size);
      if r.Some? { AccessAllKeepsHolds(budget, r.value, ids[1..], size); }
    }
  }

  /** A referenced build works with the cached object for all of its pin exactly when its job was still cached at
      the pin, a region after the insertion. */
  lemma {:induction false} BuildIsLiveIff(budget: Option<nat>, s: State, turns: seq<Turn>, t: nat)
    requires Inv(s) && t in s.holds && s.holds[t].Building? && forall turn :: turn in turns ==> !Ends(turn.action, t)
    ensures var r := Run(budget, s, turns);
            && t in r.holds && r.holds[t] == s.holds[t]
            && (Lookup(r.cache, r.holds[t].id) == Some(r.holds[t].obj) <==> s.holds[t].intact)
    decreases |turns|
  {
    hide Step, Lookup;
    if turns == [] {
      LookupIn(s.cache, s.holds[t].id);
    } else if Enabled(s, turns[0].action) {
      StepKeepsInv(budget, s, turns[0]);
      StepKeepsHold(budget, s, turns[0], t);
      BuildIsLiveIff(budget, Step(budget, s, turns[0]), turns[1..], t);
    } else {
      BuildIsLiveIff(budget, s, turns[1..], t);
    }
  }

  /** What is in the cache afterwards was there before, or was created since. */
  ghost predicate OnlyNew(s: State, r: State) {
    s.next <= r.next && forall e :: e in r.cache ==> e in s.cache || e.obj >= s.next
  }

  lemma OnlyNewThrough(s: State, m: State, r: State)
    requires OnlyNew(s, m) && OnlyNew(m, r)
    ensures OnlyNew(s, r)
  {
  }

  lemma TrimmedOnlyNew(budget: Option<nat>, s: State, keep: set<string>, size: nat -> nat)
    ensures OnlyNew(s, Trimmed(budget, s, keep, size))
  {
  }

  lemma MovedOnlyNew(s: State, id: string)
    requires Unique(s.cache)
    ensures OnlyNew(s, Moved(s, id))
  {
    LookupIn(s.cache, id);
  }

  lemma AccessOnlyNew(budget: Option<nat>, s: State, id: string, stored: bool, size: nat -> nat)
    requires Unique(s.cache) && Access(budget, s, id, stored, size).Some?
    ensures OnlyNew(s, Access(budget, s, id, stored, size).value)
  {
    hide Moved, Trimmed, OnlyNew;
    MovedOnlyNew(s, id);
    TrimmedOnlyNew(budget, Moved(s, id), {id}, size);
    OnlyNewThrough(s, Moved(s, id), Access(budget, s, id, stored, size).value);
  }

  lemma {:induction false} AccessAllOnlyNew(budget: Option<nat>, s: State, ids: seq<string>, size: nat -> nat)
    requires Unique(s.cache) && forall e :: e in s.cache ==> e.obj < s.next
    ensures OnlyNew(s, AccessAll(budget, s, ids, size))
    decreases |ids|
  {
    if ids != [] {
      var r := Access(budget, s, ids[0], true, size);
      AccessIsSteady(budget, s, ids[0], true, size);
      AccessOnlyNew(budget, s, ids[0], true, size);
      AccessAllOnlyNew(budget, r.value, ids[1..], size);
      OnlyNewThrough(s, r.value, AccessAll(budget, s, ids, size));
    }
  }

  lemma StepOnlyNew(budget: Option<nat>, s: State, turn: Turn)
    requires Inv(s) && Enabled(s, turn.action)
    ensures OnlyNew(s, Step(budget, s, turn))
  {
    hide Lookup, Bump, Release, Moved, Fit, Counted, Served, Access, AccessAll;
    var size := turn.size;
    match turn.action
    case StartRun(t, id, stored, complete) => if Access(budget, s, id, stored, size).Some? { AccessOnlyNew(budget, s, id, stored, size); }
    case StartWait(t, id, stored, behind) => if Access(budget, s, id, stored, size).Some? { AccessOnlyNew(budget, s, id, stored, size); }
    case Use(id, stored) => if Access(budget, s, id, stored, size).Some? { AccessOnlyNew(budget, s, id, stored, size); }
    case EndRun(t) => TrimmedOnlyNew(budget, s.(active := Release(s.active, s.holds[t].id), holds := s.holds - {t}), {}, size);
    case EndWait(t) => TrimmedOnlyNew(budget, s.(waiters := Release(s.waiters, s.holds[t].id), holds := s.holds - {t}), {}, size);
    case Refresh(id, stored, settled) =>
      TrimmedOnlyNew(budget, s, {id}, size);
      TrimmedOnlyNew(budget, s.(cache := s.cache + [Entry(id, s.next)], next := s.next + 1), {id}, size);
    case FailedUnit(uses) => AccessAllOnlyNew(budget, s, uses, size);
    case _ =>
  }

  /** This turn drops the entry from the cache. */
  predicate Evicts(budget: Option<nat>, s: State, turn: Turn, e: Entry) {
    Enabled(s, turn.action) && e in s.cache && e !in Step(budget, s, turn).cache
  }

  predicate NeverEvicts(budget: Option<nat>, s: State, turns: seq<Turn>, e: Entry)
    decreases |turns|
  {
    turns != [] ==>
      && !Evicts(budget, s, turns[0], e)
      && NeverEvicts(budget, if Enabled(s, turns[0].action) then Step(budget, s, turns[0]) else s, turns[1..], e)
  }

  lemma StepKeepsInserted(budget: Option<nat>, s: State, turn: Turn, t: nat)
    requires Enabled(s, turn.action) && t in s.holds && s.holds[t].Inserted? && turn.action != PinBuild(t)
    ensures t in Step(budget, s, turn).holds && Step(budget, s, turn).holds[t] == s.holds[t]
  {
    hide Lookup, Bump, Release, Moved, Fit;
    match turn.action
    case FailedUnit(uses) => AccessAllKeepsHolds(budget, s, uses, turn.size);
    case _ => MovedKeepsHolds(s);
  }

  /** An object that has left the cache does not come back. */
  lemma {:induction false} GapDecides(budget: Option<nat>, s: State, gap: seq<Turn>, t: nat)
    requires Inv(s) && t in s.holds && s.holds[t].Inserted? && forall turn :: turn in gap ==> turn.action != PinBuild(t)
    ensures var r := Run(budget, s, gap);
            && Inv(r) && t in r.holds && r.holds[t] == s.holds[t]
            && (Live(r, s.holds[t]) <==> Live(s, s.holds[t]) && NeverEvicts(budget, s, gap, Entry(s.holds[t].id, s.holds[t].obj)))
    decreases |gap|
  {
    hide Step, Unique, Counted, Served, Enabled;
    if gap != [] {
      assert gap[0] in gap;
      if Enabled(s, gap[0].action) {
        StepKeepsInv(budget, s, gap[0]);
        StepKeepsInserted(budget, s, gap[0], t);
        StepOnlyNew(budget, s, gap[0]);
        GapDecides(budget, Step(budget, s, gap[0]), gap[1..], t);
      } else {
        GapDecides(budget, s, gap[1..], t);
      }
    }
  }

  /** A referenced build that has just inserted its job works with the cached object for all of its pin if and only if
      no turn between the insertion and the pin drops it. */
  lemma BuildIsLiveIffKept(budget: Option<nat>, s: State, gap: seq<Turn>, pin: Turn, during: seq<Turn>, t: nat)
    requires Inv(s) && t in s.holds && s.holds[t].Inserted? && Live(s, s.holds[t])
    requires pin.action == PinBuild(t) && forall turn :: turn in gap ==> turn.action != PinBuild(t)
    requires forall turn :: turn in during ==> !Ends(turn.action, t)
    ensures Enabled(Run(budget, s, gap), pin.action)
    ensures var h := s.holds[t]; var r := Run(budget, Step(budget, Run(budget, s, gap), pin), during);
            Lookup(r.cache, h.id) == Some(h.obj) <==> NeverEvicts(budget, s, gap, Entry(h.id, h.obj))
  {
    hide Run, Unique, Counted, Served, NeverEvicts, Lookup;
    GapDecides(budget, s, gap, t);
    var m := Run(budget, s, gap);
    StepKeepsInv(budget, m, pin);
    LookupIn(m.cache, s.holds[t].id);
    BuildIsLiveIff(budget, Step(budget, m, pin), during, t);
  }

  const ONE: nat -> nat := (obj: nat) => 1

  /** Another thread's trim in the gap, then its next access: the build and the cache part ways. */
  lemma GapParts()
    ensures var s := Run(Some(0), COLD, [Turn(Insert(1, "a"), ONE), Turn(Use("b", true), ONE), Turn(PinBuild(1), ONE), Turn(Use("a", true), ONE)]);
            && 1 in s.holds && s.holds[1].Building? && s.holds[1].id == "a"
            && Lookup(s.cache, "a").Some? && Lookup(s.cache, "a") != Some(s.holds[1].obj)
  {
    hide Step;
    var t1, t2, t3, t4 := Turn(Insert(1, "a"), ONE), Turn(Use("b", true), ONE), Turn(PinBuild(1), ONE), Turn(Use("a", true), ONE);
    var s1 := Inserting();
    var s2 := Using(s1);
    var s3 := Pinning(s2);
    Again(s3);
    assert [t1, t2, t3, t4][1..] == [t2, t3, t4] && [t2, t3, t4][1..] == [t3, t4] && [t3, t4][1..] == [t4] && [t4][1..] == [];
    assert Run(Some(0), s3, [t4]) == Step(Some(0), s3, t4);
    assert Run(Some(0), s2, [t3, t4]) == Run(Some(0), s3, [t4]);
    assert Run(Some(0), s1, [t2, t3, t4]) == Run(Some(0), s2, [t3, t4]);
  }

  lemma Inserting() returns (s: State)
    ensures Enabled(COLD, Insert(1, "a")) && s == Step(Some(0), COLD, Turn(Insert(1, "a"), ONE))
    ensures s == State([Entry("a", 0)], map[], map[], map[1 := Inserted("a", 0)], 1)
  {
    s := Step(Some(0), COLD, Turn(Insert(1, "a"), ONE));
  }

  lemma Using(s: State) returns (r: State)
    requires s == State([Entry("a", 0)], map[], map[], map[1 := Inserted("a", 0)], 1)
    ensures r == Step(Some(0), s, Turn(Use("b", true), ONE))
    ensures r == State([Entry("b", 1)], map[], map[], map[1 := Inserted("a", 0)], 2)
  {
    hide Trim;
    r := Step(Some(0), s, Turn(Use("b", true), ONE));
    MovesB(s);
    assert Pinned(s) + {"b"} == {"b"};
    GapTrims();
  }

  lemma MovesB(s: State)
    requires s == State([Entry("a", 0)], map[], map[], map[1 := Inserted("a", 0)], 1)
    ensures Lookup(s.cache, "b").None? && Moved(s, "b") == s.(cache := [Entry("a", 0), Entry("b", 1)], next := 2)
  {
    assert Without([Entry("a", 0)], {"b"}) == [Entry("a", 0)] + Without([], {"b"});
  }

  lemma Pinning(s: State) returns (r: State)
    requires s == State([Entry("b", 1)], map[], map[], map[1 := Inserted("a", 0)], 2)
    ensures Enabled(s, PinBuild(1)) && r == Step(Some(0), s, Turn(PinBuild(1), ONE))
    ensures r.cache == [Entry("b", 1)] && 1 in r.holds && r.holds[1] == Building("a", 0, false) && r.next == 2
  {
    r := Step(Some(0), s, Turn(PinBuild(1), ONE));
    assert Lookup(s.cache, "a").None?;
  }

  lemma Again(s: State)
    requires s.cache == [Entry("b", 1)] && 1 in s.holds && s.holds[1] == Building("a", 0, false) && s.next == 2
    ensures var r := Step(Some(0), s, Turn(Use("a", true), ONE));
            r.holds == s.holds && Lookup(r.cache, "a").Some? && Lookup(r.cache, "a") != Some(0)
  {
    assert Lookup(s.cache, "a").None?;
    AccessIsSteady(Some(0), s, "a", true, ONE);
    var r := Step(Some(0), s, Turn(Use("a", true), ONE));
    TrimmedFrom(s, "a");
    LookupIn(r.cache, "a");
  }

  lemma TrimmedFrom(s: State, id: string)
    requires Unique(s.cache) && Lookup(s.cache, id).None? && forall e :: e in s.cache ==> e.obj < s.next
    ensures forall e :: e in Access(Some(0), s, id, true, ONE).value.cache && e.id == id ==> e.obj == s.next
  {
    LookupIn(s.cache, id);
    MovedIsSteady(s, id);
    FitIsSteady(Some(0), Moved(s, id), {id}, ONE);
  }

  lemma GapTrims()
    ensures Trim([Entry("a", 0), Entry("b", 1)], {"b"}, ONE, 0) == [Entry("b", 1)]
  {
    var cache := [Entry("a", 0), Entry("b", 1)];
    assert cache[1..] == [Entry("b", 1)];
    assert Without(cache, {"b"}) == [Entry("a", 0)];
    assert Excess([Entry("a", 0)], ONE, 0) == 1;
    assert Ids([Entry("a", 0)]) == {"a"};
  }

  // ----- the manager's cache -----

  lemma {:induction false} WithoutGrows(cache: seq<Entry>, e: Entry, ids: set<string>)
    ensures Without(cache + [e], ids) == Without(cache, ids) + (if e.id in ids then [] else [e])
  {
    if cache != [] {
      assert (cache + [e])[1..] == cache[1..] + [e];
      WithoutGrows(cache[1..], e, ids);
    }
  }

  lemma {:induction false} TotalGrows(cache: seq<Entry>, e: Entry, size: nat -> nat)
    ensures Total(cache + [e], size) == Total(cache, size) + size(e.obj)
  {
    if cache != [] {
      assert (cache + [e])[1..] == cache[1..] + [e];
      TotalGrows(cache[1..], e, size);
    }
  }

  /** `cache` is `was` with some jobs taken out, the given one among them, and that one behind all others. */
  ghost predicate Behind(was: seq<Entry>, cache: seq<Entry>, e: Entry) {
    exists gone: set<string> :: e.id in gone && cache == Without(was, gone) + [e]
  }

  lemma FitBehind(budget: Option<nat>, was: seq<Entry>, e: Entry, pinned: set<string>, size: nat -> nat)
    requires e.id in pinned
    ensures Behind(was, Fit(budget, Without(was, {e.id}) + [e], pinned, size), e)
  {
    var m := Without(was, {e.id}) + [e];
    if budget.Some? {
      var gone := Ids(Evicted(m, pinned, size, budget.value));
      EvictedUnpinned(m, pinned, size, budget.value);
      hide Without, Ids, Evicted;
      WithoutGrows(Without(was, {e.id}), e, gone);
      WithoutComposes(was, {e.id}, gone);
      assert e.id in {e.id} + gone;
    } else {
      assert e.id in {e.id};
    }
  }

  lemma BehindIsFound(was: seq<Entry>, cache: seq<Entry>, e: Entry)
    requires Unique(cache) && Behind(was, cache, e)
    ensures Lookup(cache, e.id) == Some(e.obj)
  {
    LookupIn(cache, e.id);
    assert cache[|cache| - 1] == e;
  }

  /** The object an access gives: the cached one, or a new one. */
  function Given(s: State, id: string): Entry {
    Entry(id, match Lookup(s.cache, id) case Some(obj) => obj case None => s.next)
  }

  /** An access makes its job the most recent one and leaves the others in their order; it fails exactly when the job
      is neither cached nor stored. */
  lemma AccessMakesLast(budget: Option<nat>, s: State, id: string, stored: bool, size: nat -> nat)
    requires Unique(s.cache)
    ensures Access(budget, s, id, stored, size).Some? <==> stored || id in Ids(s.cache)
    ensures Access(budget, s, id, stored, size).Some? ==>
              Behind(s.cache, Access(budget, s, id, stored, size).value.cache, Given(s, id))
    ensures if id in Ids(s.cache) then Given(s, id) in s.cache else Given(s, id).obj == s.next
  {
    hide Without, Ids, Fit, Behind, Pinned;
    LookupIn(s.cache, id);
    FitBehind(budget, s.cache, Given(s, id), Pinned(Moved(s, id)) + {id}, size);
  }

  lemma EvictedUnpinned(cache: seq<Entry>, pinned: set<string>, size: nat -> nat, budget: nat)
    ensures pinned !! Ids(Evicted(cache, pinned, size, budget))
  {
    assert forall e :: e in Evicted(cache, pinned, size, budget) ==> e in Without(cache, pinned);
  }

  lemma InvIsUnique(s: State)
    requires Inv(s)
    ensures Unique(s.cache) && forall e :: e in s.cache ==> e.obj < s.next
  {
  }

  lemma NothingLeft(cache: seq<Entry>, ids: set<string>, size: nat -> nat)
    requires cache == []
    ensures Without(cache, ids) == [] && Total([], size) == 0
  {
  }

  /** The cache after evicting the first `k` of the history, and the size the rest of it has. */
  ghost function Left(jobs: seq<Entry>, history: seq<Entry>, k: nat): seq<Entry>
    requires k <= |history|
  {
    Without(jobs, Ids(history[..k]))
  }

  ghost function Weight(history: seq<Entry>, k: nat, size: nat -> nat): nat
    requires k <= |history|
  {
    Total(history[k..], size)
  }

  lemma ExcessStops(history: seq<Entry>, size: nat -> nat, budget: nat, i: nat)
    requires i <= Excess(history, size, budget)
    ensures i < Excess(history, size, budget) <==> Weight(history, i, size) > budget
  {
    ExcessIsLeast(history, size, budget);
  }

  lemma EvictNone(jobs: seq<Entry>, history: seq<Entry>, size: nat -> nat)
    ensures Left(jobs, history, 0) == jobs && Weight(history, 0, size) == Total(history, size)
  {
    WithoutNothing(jobs, Ids(history[..0]));
    assert history[0..] == history;
  }

  lemma EvictNext(jobs: seq<Entry>, history: seq<Entry>, i: nat, size: nat -> nat)
    requires i < |history|
    ensures Without(Left(jobs, history, i), {history[i].id}) == Left(jobs, history, i + 1)
    ensures Weight(history, i, size) == size(history[i].obj) + Weight(history, i + 1, size)
  {
    WithoutComposes(jobs, Ids(history[..i]), {history[i].id});
    assert history[..i + 1] == history[..i] + [history[i]];
    assert Ids(history[..i + 1]) == Ids(history[..i]) + {history[i].id};
    assert history[i..][1..] == history[i + 1..];
  }

  lemma EvictedIsTrim(jobs: seq<Entry>, pinned: set<string>, size: nat -> nat, budget: nat)
    ensures var history := Without(jobs, pinned); Left(jobs, history, Excess(history, size, budget)) == Trim(jobs, pinned, size, budget)
  {
  }

  class LiveJobs {
    const budget: Option<nat>
    var jobs: seq<Entry>
    var active: map<string, nat>
    var waiters: map<string, nat>
    var next: nat
    /** The threads inside, each with its local job variable. */
    ghost var holds: map<nat, Hold>

    constructor (budget: Option<nat>)
      ensures View() == COLD && this.budget == budget
    {
      this.budget, jobs, active, waiters, next, holds := budget, [], map[], map[], 0, map[];
    }

    ghost function View(): State
      reads this
    {
      State(jobs, active, waiters, holds, next)
    }

    method Measure(pinned: set<string>, size: nat -> nat) returns (history: seq<Entry>, total: nat)
      ensures history == Without(jobs, pinned) && total == Total(history, size)
    {
      hide Without, Total;
      history, total := [], 0;
      NothingLeft(jobs[..0], pinned, size);
      for i := 0 to |jobs|
        invariant history == Without(jobs[..i], pinned) && total == Total(history, size)
      {
        assert jobs[..i + 1] == jobs[..i] + [jobs[i]];
        WithoutGrows(jobs[..i], jobs[i], pinned);
        if jobs[i].id !in pinned {
          TotalGrows(history, jobs[i], size);
          history, total := history + [jobs[i]], total + size(jobs[i].obj);
        }
      }
      assert jobs[..|jobs|] == jobs;
    }

    /** `_trim_history_locked`. */
    method TrimHistory(keep: set<string>, size: nat -> nat)
      modifies `jobs
      ensures View() == Trimmed(budget, old(View()), keep, size)
    {
      hide Without, Excess, Ids, Total, Left, Weight;
      if budget.None? {
        return;
      }
      var history, total := Measure(active.Keys + waiters.Keys + keep, size);
      ghost var excess := Excess(history, size, budget.value);
      var i := 0;
      EvictNone(jobs, history, size);
      while i < |history| && total > budget.value
        invariant i <= excess && total == Weight(history, i, size)
        invariant jobs == Left(old(jobs), history, i)
        modifies `jobs
      {
        ExcessStops(history, size, budget.value, i);
        EvictNext(old(jobs), history, i, size);
        jobs, total := Without(jobs, {history[i].id}), total - size(history[i].obj);
        i := i + 1;
      }
      ExcessStops(history, size, budget.value, i);
      EvictedIsTrim(old(jobs), active.Keys + waiters.Keys + keep, size, budget.value);
    }

    /** `_job`. */
    method Job(id: string, stored: bool, size: nat -> nat) returns (obj: Option<nat>)
      requires Inv(View())
      modifies `jobs, `next
      ensures match Access(budget, old(View()), id, stored, size)
              case None => obj == None && View() == old(View())
              case Some(r) => obj == Lookup(jobs, id) && obj.Some? && View() == r
      ensures obj.Some? <==> stored || id in Ids(old(jobs))
      ensures obj.Some? ==> Behind(old(jobs), jobs, Entry(id, obj.value))
      ensures obj.Some? ==> if id in Ids(old(jobs)) then Entry(id, obj.value) in old(jobs) else obj.value == old(next)
    {
      hide Inv, Ids, Without, Behind, Fit, Lookup;
      ghost var before := View();
      assert Unique(before.cache) && forall e :: e in before.cache ==> e.obj < before.next by { InvIsUnique(before); }
      AccessMakesLast(budget, before, id, stored, size);
      obj := Lookup(jobs, id);
      if obj.None? {
        if !stored {
          return;
        }
        obj, next := Some(next), next + 1;
      }
      AccessIsSteady(budget, before, id, stored, size);
      jobs := Without(jobs, {id}) + [Entry(id, obj.value)];
      assert View() == Moved(before, id) && Entry(id, obj.value) == Given(before, id);
      TrimHistory({id}, size);
      BehindIsFound(before.cache, jobs, Given(before, id));
    }

    /** The locked entry of `run_job`: requires a complete input, then pins. */
    method BeginRun(ghost thread: nat, id: string, stored: bool, complete: bool, size: nat -> nat) returns (obj: Option<nat>)
      requires Inv(View()) && Enabled(View(), StartRun(thread, id, stored, complete))
      modifies this
      ensures View() == Step(budget, old(View()), Turn(StartRun(thread, id, stored, complete), size)) && Inv(View())
      ensures obj.Some? ==> thread in holds && holds[thread] == Running(id, obj.value)
    {
      hide Inv;
      StepKeepsInv(budget, View(), Turn(StartRun(thread, id, stored, complete), size));
      obj := Job(id, stored, size);
      if obj.None? || !complete {
        return None;
      }
      active := Bump(active, id);
      holds := holds[thread := Running(id, obj.value)];
    }

    /** Its `finally` region. */
    method FinishRun(ghost thread: nat, id: string, size: nat -> nat)
      requires Inv(View()) && Enabled(View(), EndRun(thread)) && holds[thread].id == id
      modifies this
      ensures View() == Step(budget, old(View()), Turn(EndRun(thread), size)) && Inv(View())
    {
      StepKeepsInv(budget, View(), Turn(EndRun(thread), size));
      active := Release(active, id);
      holds := holds - {thread};
      TrimHistory({}, size);
    }
  }
}
