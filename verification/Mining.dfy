/**
 Template mining of drain_miner.py: one miner per shard, its state in a file named after the shard. Partitions are
 mined by workers that interleave freely; the result is what one shared manager produces in input order.
 */
module Mining {
  import opened Prelude

  datatype Record = Record(cluster: string, node: string, sourceType: string, component: string, message: string)

  /** A shard key: cluster, node when partitioned by node, source type, component. */
  type Key = seq<string>

  /** A miner's state as it is written to its file, and an event as JSON text. */
  type MinerState = string
  type Event = string

  datatype Mined = Mined(state: MinerState, event: Event, saves: bool)

  /** The template miner: what a record makes of its state, the event it yields, and whether the file is written. */
  datatype Miner = Miner(initial: MinerState, mine: (MinerState, Record) -> Mined)

  type Files = map<string, MinerState>

  function OrElse(text: string, default: string): string { if text == "" then default else text }

  /** `mining_partition_key`, which is also the shard key the manager uses under the partition's scope. */
  function KeyOf(r: Record, byNode: bool): Key {
    [OrElse(r.cluster, "default")] + (if byNode then [OrElse(r.node, "unknown")] else [])
    + [OrElse(r.sourceType, "unknown"), OrElse(r.component, "unknown")]
  }

  function SafeText(text: string): string {
    if text == "" then "" else [if text[0] == '/' || text[0] == ' ' then '_' else text[0]] + SafeText(text[1..])
  }

  function Joined(parts: Key): string {
    if parts == [] then "" else if |parts| == 1 then SafeText(parts[0]) else SafeText(parts[0]) + "__" + Joined(parts[1..])
  }

  function FileOf(key: Key): string { Joined(key) + ".bin" }

  function Load(m: Miner, files: Files, key: Key): MinerState {
    if FileOf(key) in files then files[FileOf(key)] else m.initial
  }

  function Stored(files: Files, key: Key, mined: Mined): Files {
    if mined.saves then files[FileOf(key) := mined.state] else files
  }

  /** Everything a run over one input is about. */
  datatype Job = Job(miner: Miner, files: Files, records: seq<Record>, byNode: bool)

  function KeyAt(j: Job, i: nat): Key
    requires i < |j.records|
  {
    KeyOf(j.records[i], j.byNode)
  }

  predicate IsKey(j: Job, key: Key) { exists i :: 0 <= i < |j.records| && KeyAt(j, i) == key }

  /** Distinct shards of the input have distinct files. */
  ghost predicate OwnFiles(j: Job) {
    forall a, b :: 0 <= a < |j.records| && 0 <= b < |j.records| && FileOf(KeyAt(j, a)) == FileOf(KeyAt(j, b)) ==> KeyAt(j, a) == KeyAt(j, b)
  }

  // ----- the reference -----

  /** A shard's miner after the first `n` records of the input. */
  function ShardState(j: Job, key: Key, n: nat): MinerState
    requires n <= |j.records|
  {
    if n == 0 then Load(j.miner, j.files, key)
    else
      var before := ShardState(j, key, n - 1);
      if KeyAt(j, n - 1) == key then j.miner.mine(before, j.records[n - 1]).state else before
  }

  function Expected(j: Job, i: nat): Event
    requires i < |j.records|
  {
    j.miner.mine(ShardState(j, KeyAt(j, i), i), j.records[i]).event
  }

  /** One shared manager: its miners, the files as they are written, and the events so far. */
  datatype Shared = Shared(miners: map<Key, MinerState>, files: Files, events: seq<Event>)

  function SharedStep(m: Miner, s: Shared, key: Key, r: Record): Shared {
    var state := if key in s.miners then s.miners[key] else Load(m, s.files, key);
    var mined := m.mine(state, r);
    Shared(s.miners[key := mined.state], Stored(s.files, key, mined), s.events + [mined.event])
  }

  function SharedRun(j: Job, n: nat): Shared
    requires n <= |j.records|
  {
    if n == 0 then Shared(map[], j.files, []) else SharedStep(j.miner, SharedRun(j, n - 1), KeyAt(j, n - 1), j.records[n - 1])
  }

  /** The shared manager after `n` records: expected events, and every shard's state in memory or still on file. */
  ghost predicate SharedAt(j: Job, s: Shared, n: nat)
    requires n <= |j.records|
  {
    && |s.events| == n && (forall i :: 0 <= i < n ==> s.events[i] == Expected(j, i))
    && (forall k :: k in s.miners ==> s.miners[k] == ShardState(j, k, n))
    && forall i :: 0 <= i < |j.records| && KeyAt(j, i) !in s.miners ==>
         ShardState(j, KeyAt(j, i), n) == Load(j.miner, j.files, KeyAt(j, i)) == Load(j.miner, s.files, KeyAt(j, i))
  }

  lemma SharedStepKeeps(j: Job, s: Shared, n: nat)
    requires OwnFiles(j) && n < |j.records| && SharedAt(j, s, n)
    ensures SharedAt(j, SharedStep(j.miner, s, KeyAt(j, n), j.records[n]), n + 1)
  {
    hide FileOf, KeyOf;
    var key := KeyAt(j, n);
    var r := SharedStep(j.miner, s, key, j.records[n]);
    var state := if key in s.miners then s.miners[key] else Load(j.miner, s.files, key);
    assert state == ShardState(j, key, n);
    forall i | 0 <= i < n + 1 ensures r.events[i] == Expected(j, i) {
      if i < n { assert r.events[i] == s.events[i]; }
    }
    forall i | 0 <= i < |j.records| && KeyAt(j, i) !in r.miners
      ensures ShardState(j, KeyAt(j, i), n + 1) == Load(j.miner, j.files, KeyAt(j, i)) == Load(j.miner, r.files, KeyAt(j, i))
    {
      assert KeyAt(j, i) !in s.miners && KeyAt(j, i) != key && FileOf(KeyAt(j, i)) != FileOf(key);
    }
  }

  /** The reference: one shared manager over the whole input yields, record by record, the expected events. */
  lemma {:induction false} SharedIsExpected(j: Job, n: nat)
    requires OwnFiles(j) && n <= |j.records|
    ensures SharedAt(j, SharedRun(j, n), n)
  {
    hide SharedAt, SharedStep;
    if n == 0 {
      SharedStarts(j);
    } else {
      SharedIsExpected(j, n - 1);
      SharedStepKeeps(j, SharedRun(j, n - 1), n - 1);
    }
  }

  lemma SharedStarts(j: Job)
    ensures SharedAt(j, Shared(map[], j.files, []), 0)
  {
  }

  // ----- partitions -----

  /** The positions of a shard's records, in order. */
  function Positions(j: Job, key: Key, n: nat): (ps: seq<nat>)
    requires n <= |j.records|
    ensures forall p :: p in ps ==> p < n && KeyAt(j, p) == key
    ensures forall p: nat :: p < n && KeyAt(j, p) == key ==> p in ps
    ensures forall x, y :: 0 <= x < y < |ps| ==> ps[x] < ps[y]
  {
    if n == 0 then []
    else if KeyAt(j, n - 1) == key then
      var before := Positions(j, key, n - 1);
      assert forall x :: 0 <= x < |before| ==> before[x] in before;
      before + [n - 1]
    else Positions(j, key, n - 1)
  }

  function Partition(j: Job, key: Key): seq<nat> { Positions(j, key, |j.records|) }

  /** A worker on one partition. */
  datatype Worker = Waiting | Mining(state: MinerState, events: seq<Event>) | Collected

  /** The files all workers write to, the result slots, and the progress counters. */
  datatype State = State(files: Files, workers: map<Key, Worker>, slots: map<nat, Event>, partitions: nat, processed: nat)

  datatype Action = Open(key: Key) | Mine(key: Key) | Collect(key: Key)

  function WorkerOf(s: State, key: Key): Worker { if key in s.workers then s.workers[key] else Waiting }

  predicate Enabled(j: Job, s: State, a: Action) {
    && IsKey(j, a.key)
    && match a
       case Open(key) => WorkerOf(s, key).Waiting?
       case Mine(key) => WorkerOf(s, key).Mining? && |WorkerOf(s, key).events| < |Partition(j, key)|
       case Collect(key) => WorkerOf(s, key).Mining? && |WorkerOf(s, key).events| == |Partition(j, key)|
  }

  function Filled(slots: map<nat, Event>, positions: seq<nat>, events: seq<Event>): map<nat, Event>
    requires |positions| == |events|
  {
    if positions == [] then slots
    else Filled(slots, positions[..|positions| - 1], events[..|events| - 1])[positions[|positions| - 1] := events[|events| - 1]]
  }

  function Step(j: Job, s: State, a: Action): State
    requires Enabled(j, s, a)
  {
    match a
    case Open(key) => s.(workers := s.workers[key := Mining(Load(j.miner, s.files, key), [])])
    case Mine(key) =>
      var w := s.workers[key];
      var position := Partition(j, key)[|w.events|];
      assert position in Partition(j, key);
      var mined := j.miner.mine(w.state, j.records[position]);
      s.(files := Stored(s.files, key, mined), workers := s.workers[key := Mining(mined.state, w.events + [mined.event])])
    case Collect(key) =>
      var positions := Partition(j, key);
      s.(workers := s.workers[key := Collected], slots := Filled(s.slots, positions, s.workers[key].events),
         partitions := s.partitions + 1, processed := s.processed + |positions|)
  }

  function Start(j: Job): State { State(j.files, map[], map[], 0, 0) }

  /** The position a worker has reached: that of its next record, or the end of the input. */
  function Reached(j: Job, key: Key, n: nat): (p: nat)
    requires n <= |Partition(j, key)|
    ensures p <= |j.records|
  {
    if n < |Partition(j, key)| then
      assert Partition(j, key)[n] in Partition(j, key);
      Partition(j, key)[n]
    else |j.records|
  }

  /** Between two of its records a shard's miner stays as it is. */
  lemma {:induction false} ShardStill(j: Job, key: Key, a: nat, b: nat)
    requires a <= b <= |j.records| && forall i :: a <= i < b ==> KeyAt(j, i) != key
    ensures ShardState(j, key, a) == ShardState(j, key, b)
    decreases b
  {
    if a < b { ShardStill(j, key, a, b - 1); }
  }

  /** Mining its next record takes a worker from the shard's state there to the state at the one after. */
  lemma ReachedNext(j: Job, key: Key, n: nat)
    requires n < |Partition(j, key)|
    ensures var p := Partition(j, key)[n];
            && p < |j.records| && KeyAt(j, p) == key && p < Reached(j, key, n + 1)
            && ShardState(j, key, Reached(j, key, n + 1)) == j.miner.mine(ShardState(j, key, p), j.records[p]).state
            && Expected(j, p) == j.miner.mine(ShardState(j, key, p), j.records[p]).event
  {
    var ps := Partition(j, key);
    var p := ps[n];
    assert p in ps;
    var q := Reached(j, key, n + 1);
    if n + 1 < |ps| { assert ps[n] < ps[n + 1]; }
    assert forall x :: 0 <= x < |ps| ==> ps[x] <= p || ps[x] >= q;
    forall i | p + 1 <= i < q ensures KeyAt(j, i) != key {
      assert KeyAt(j, i) == key ==> i in ps;
    }
    ShardStill(j, key, p + 1, q);
  }

  lemma ReachedFirst(j: Job, key: Key)
    ensures ShardState(j, key, Reached(j, key, 0)) == Load(j.miner, j.files, key)
  {
    var ps := Partition(j, key);
    var q := Reached(j, key, 0);
    assert forall x :: 0 <= x < |ps| ==> ps[x] >= q;
    forall i | 0 <= i < q ensures KeyAt(j, i) != key {
      assert KeyAt(j, i) == key ==> i in ps;
    }
    ShardStill(j, key, 0, q);
  }

  // ----- a shard's file -----

  function OnFile(files: Files, key: Key): Option<MinerState> { if FileOf(key) in files then Some(files[FileOf(key)]) else None }

  /** What a shard's file holds after the first `n` records: the state at its last record that saved. */
  function FileState(j: Job, key: Key, n: nat): Option<MinerState>
    requires n <= |j.records|
  {
    if n == 0 then OnFile(j.files, key)
    else
      var mined := j.miner.mine(ShardState(j, key, n - 1), j.records[n - 1]);
      if KeyAt(j, n - 1) == key && mined.saves then Some(mined.state) else FileState(j, key, n - 1)
  }

  lemma {:induction false} FileStill(j: Job, key: Key, a: nat, b: nat)
    requires a <= b <= |j.records| && forall i :: a <= i < b ==> KeyAt(j, i) != key
    ensures FileState(j, key, a) == FileState(j, key, b)
    decreases b
  {
    hide ShardState;
    if a < b { FileStill(j, key, a, b - 1); }
  }

  /** A worker that mines its next record leaves the shard's file as the whole input up to the one after does. */
  lemma FileNext(j: Job, key: Key, n: nat)
    requires n < |Partition(j, key)|
    ensures var p := Partition(j, key)[n];
            && p < |j.records|
            && var mined := j.miner.mine(ShardState(j, key, p), j.records[p]);
               FileState(j, key, Reached(j, key, n + 1)) == if mined.saves then Some(mined.state) else FileState(j, key, Reached(j, key, n))
  {
    hide ShardState;
    var ps := Partition(j, key);
    var p := ps[n];
    assert p in ps;
    var q := Reached(j, key, n + 1);
    if n + 1 < |ps| { assert ps[n] < ps[n + 1]; }
    assert forall x :: 0 <= x < |ps| ==> ps[x] <= p || ps[x] >= q;
    forall i | p + 1 <= i < q ensures KeyAt(j, i) != key {
      assert KeyAt(j, i) == key ==> i in ps;
    }
    FileStill(j, key, p + 1, q);
  }

  lemma FileFirst(j: Job, key: Key)
    ensures FileState(j, key, Reached(j, key, 0)) == OnFile(j.files, key)
  {
    var ps := Partition(j, key);
    var q := Reached(j, key, 0);
    assert forall x :: 0 <= x < |ps| ==> ps[x] >= q;
    forall i | 0 <= i < q ensures KeyAt(j, i) != key {
      assert KeyAt(j, i) == key ==> i in ps;
    }
    FileStill(j, key, 0, q);
  }

  /** Every file but the shard's is as it was. */
  ghost predicate OtherFilesStay(was: Files, now: Files, key: Key) {
    forall f :: f != FileOf(key) ==> (f in now <==> f in was) && (f in was ==> now[f] == was[f])
  }

  lemma StoredIs(files: Files, key: Key, mined: Mined)
    ensures OtherFilesStay(files, Stored(files, key, mined), key)
    ensures OnFile(Stored(files, key, mined), key) == if mined.saves then Some(mined.state) else OnFile(files, key)
  {
    hide FileOf;
  }

  lemma OthersStayThrough(a: Files, b: Files, c: Files, key: Key)
    requires OtherFilesStay(a, b, key) && OtherFilesStay(b, c, key)
    ensures OtherFilesStay(a, c, key)
  {
    hide FileOf;
  }

  predicate NoShards(j: Job, f: string) { forall i :: 0 <= i < |j.records| ==> FileOf(KeyAt(j, i)) != f }

  /** The files after the first `n` records: each shard's as its own records left it, all others untouched. */
  ghost predicate FilesAfter(j: Job, files: Files, n: nat)
    requires n <= |j.records|
  {
    && (forall i :: 0 <= i < |j.records| ==> OnFile(files, KeyAt(j, i)) == FileState(j, KeyAt(j, i), n))
    && forall f :: NoShards(j, f) ==> (f in files <==> f in j.files) && (f in files ==> files[f] == j.files[f])
  }

  lemma FilesAreOne(j: Job, a: Files, b: Files, n: nat)
    requires n <= |j.records| && FilesAfter(j, a, n) && FilesAfter(j, b, n)
    ensures a == b
  {
    hide FileState, KeyAt, FileOf;
    forall f ensures (f in a <==> f in b) && (f in a ==> a[f] == b[f]) {
      if !NoShards(j, f) {
        var i :| 0 <= i < |j.records| && FileOf(KeyAt(j, i)) == f;
        assert OnFile(a, KeyAt(j, i)) == OnFile(b, KeyAt(j, i));
      }
    }
  }

  lemma OwnFileOnly(j: Job, was: Files, now: Files, key: Key)
    requires OwnFiles(j) && IsKey(j, key) && OtherFilesStay(was, now, key)
    ensures forall i :: 0 <= i < |j.records| && KeyAt(j, i) != key ==> OnFile(now, KeyAt(j, i)) == OnFile(was, KeyAt(j, i))
    ensures forall f :: NoShards(j, f) ==> (f in now <==> f in was) && (f in now ==> now[f] == was[f])
  {
    hide FileOf, KeyOf;
    var x :| 0 <= x < |j.records| && KeyAt(j, x) == key;
    forall i | 0 <= i < |j.records| && KeyAt(j, i) != key ensures FileOf(KeyAt(j, i)) != FileOf(key) { assert KeyAt(j, i) != KeyAt(j, x); }
  }

  /** The shared manager leaves every shard's file as that shard's records alone do. */
  lemma {:induction false} SharedFilesAfter(j: Job, n: nat)
    requires OwnFiles(j) && n <= |j.records|
    ensures FilesAfter(j, SharedRun(j, n).files, n)
  {
    hide SharedAt, ShardState, FileOf, KeyAt, Stored, OnFile, OtherFilesStay, OwnFiles, NoShards;
    if n > 0 {
      SharedFilesAfter(j, n - 1);
      SharedIsExpected(j, n - 1);
      var s, key := SharedRun(j, n - 1), KeyAt(j, n - 1);
      SharedKnows(j, s, n - 1);
      var mined := j.miner.mine(ShardState(j, key, n - 1), j.records[n - 1]);
      StoredIs(s.files, key, mined);
      assert IsKey(j, key);
      OwnFileOnly(j, s.files, Stored(s.files, key, mined), key);
    }
  }

  lemma SharedKnows(j: Job, s: Shared, n: nat)
    requires n < |j.records| && SharedAt(j, s, n)
    ensures (if KeyAt(j, n) in s.miners then s.miners[KeyAt(j, n)] else Load(j.miner, s.files, KeyAt(j, n))) == ShardState(j, KeyAt(j, n), n)
  {
    hide Load, ShardState, KeyAt;
  }

  /** The files when some shards are mined and the others have not been begun. */
  ghost predicate FilesWhen(j: Job, files: Files, done: set<Key>) {
    && (forall k :: k in Keys(j) ==> OnFile(files, k) == if k in done then FileState(j, k, |j.records|) else OnFile(j.files, k))
    && forall f :: NoShards(j, f) ==> (f in files <==> f in j.files) && (f in files ==> files[f] == j.files[f])
  }

  lemma FilesWhenNone(j: Job)
    ensures FilesWhen(j, j.files, {})
  {
  }

  lemma FilesWhenNext(j: Job, was: Files, now: Files, done: set<Key>, key: Key)
    requires OwnFiles(j) && FilesWhen(j, was, done) && key in Keys(j) && key !in done
    requires OnFile(now, key) == FileState(j, key, |j.records|) && OtherFilesStay(was, now, key)
    ensures FilesWhen(j, now, done + {key})
  {
    hide FileState, KeyOf, FileOf, OtherFilesStay, OwnFiles, NoShards, OnFile;
    KeyIn(j, key);
    OwnFileOnly(j, was, now, key);
    forall k | k in Keys(j) && k != key ensures OnFile(now, k) == OnFile(was, k) {
      var i :| 0 <= i < |j.records| && KeyAt(j, i) == k;
    }
  }

  lemma FilesWhenAll(j: Job, files: Files)
    requires FilesWhen(j, files, Keys(j))
    ensures FilesAfter(j, files, |j.records|)
  {
    hide FileState, FileOf, NoShards, OnFile;
  }

  lemma NotBegun(j: Job, files: Files, done: set<Key>, key: Key)
    requires FilesWhen(j, files, done) && key in Keys(j) && key !in done
    ensures OnFile(files, key) == OnFile(j.files, key)
  {
  }

  // ----- every interleaving -----

  function Keys(j: Job): set<Key> { set i | 0 <= i < |j.records| :: KeyAt(j, i) }

  function Done(s: State): set<Key> { set k | k in s.workers && s.workers[k].Collected? }

  /** A worker has its shard's state at the position it has reached, and the events up to there. */
  ghost predicate Fits(j: Job, s: State, key: Key) {
    match WorkerOf(s, key)
    case Waiting => Load(j.miner, s.files, key) == Load(j.miner, j.files, key)
    case Mining(state, events) =>
      && |events| <= |Partition(j, key)| && state == ShardState(j, key, Reached(j, key, |events|))
      && forall x :: 0 <= x < |events| ==> events[x] == EventAt(j, Partition(j, key)[x])
    case Collected => true
  }

  function EventAt(j: Job, i: nat): Event { if i < |j.records| then Expected(j, i) else "" }

  /** Exactly the slots of collected partitions are filled, with the expected events. */
  ghost predicate SlotsFit(j: Job, s: State) {
    && (forall i: nat :: i in s.slots <==> i < |j.records| && KeyAt(j, i) in Done(s))
    && (forall i :: i in s.slots ==> s.slots[i] == EventAt(j, i))
    && s.processed == |s.slots| && s.partitions == |Done(s)| && s.workers.Keys <= Keys(j)
  }

  ghost predicate Inv(j: Job, s: State) {
    (forall key :: key in Keys(j) ==> Fits(j, s, key)) && SlotsFit(j, s)
  }

  lemma {:induction false} FilledKeys(slots: map<nat, Event>, positions: seq<nat>, events: seq<Event>)
    requires |positions| == |events| && (forall x, y :: 0 <= x < y < |positions| ==> positions[x] < positions[y])
    requires forall p :: p in positions ==> p !in slots
    ensures var r := Filled(slots, positions, events);
            && |r| == |slots| + |positions| && (forall p: nat :: p in r <==> p in slots || p in positions)
            && (forall p :: p in slots ==> p in r && r[p] == slots[p])
  {
    if positions != [] {
      var n := |positions| - 1;
      var earlier := positions[..n];
      assert positions == earlier + [positions[n]];
      assert positions[n] in positions && positions[n] !in earlier;
      FilledKeys(slots, earlier, events[..n]);
      GrowsByOne(Filled(slots, earlier, events[..n]), positions[n], events[n]);
    }
  }

  lemma GrowsByOne(slots: map<nat, Event>, p: nat, e: Event)
    requires p !in slots
    ensures |slots[p := e]| == |slots| + 1
  {
    assert slots[p := e].Keys == slots.Keys + {p};
  }

  lemma {:induction false} FilledValues(slots: map<nat, Event>, positions: seq<nat>, events: seq<Event>)
    requires |positions| == |events| && forall x, y :: 0 <= x < y < |positions| ==> positions[x] < positions[y]
    ensures forall x :: 0 <= x < |positions| ==> positions[x] in Filled(slots, positions, events) && Filled(slots, positions, events)[positions[x]] == events[x]
  {
    if positions != [] {
      var n := |positions| - 1;
      FilledValues(slots, positions[..n], events[..n]);
      assert forall x :: 0 <= x < n ==> positions[..n][x] == positions[x] && events[..n][x] == events[x];
    }
  }

  lemma OtherKeysKeep(j: Job, s: State, r: State, key: Key)
    requires key in r.workers && r.workers == s.workers[key := r.workers[key]]
    requires forall k :: k in Keys(j) && k != key ==> Load(j.miner, r.files, k) == Load(j.miner, s.files, k)
    requires forall k :: k in Keys(j) ==> Fits(j, s, k)
    ensures forall k :: k in Keys(j) && k != key ==> Fits(j, r, k)
  {
    hide Load, Partition, Reached, ShardState, EventAt, Keys;
  }

  /** Steps that collect nothing leave the slots as they are. */
  lemma SlotsKeep(j: Job, s: State, r: State, key: Key)
    requires SlotsFit(j, s) && key in Keys(j) && key !in Done(s)
    requires key in r.workers && !r.workers[key].Collected? && r.workers == s.workers[key := r.workers[key]]
    requires r.slots == s.slots && r.partitions == s.partitions && r.processed == s.processed
    ensures SlotsFit(j, r)
  {
    hide KeyAt, Keys, EventAt;
    assert Done(r) == Done(s);
  }

  lemma KeyIn(j: Job, key: Key)
    ensures key in Keys(j) <==> IsKey(j, key)
  {
  }

  lemma OthersFiles(j: Job, files: Files, key: Key, mined: Mined)
    requires OwnFiles(j) && key in Keys(j)
    ensures forall k :: k in Keys(j) && k != key ==> Load(j.miner, Stored(files, key, mined), k) == Load(j.miner, files, k)
  {
    hide FileOf, KeyOf;
    var i :| 0 <= i < |j.records| && KeyAt(j, i) == key;
    forall k | k in Keys(j) && k != key ensures FileOf(k) != FileOf(key) {
      var x :| 0 <= x < |j.records| && KeyAt(j, x) == k;
      assert KeyAt(j, x) != KeyAt(j, i);
    }
  }

  lemma OpenKeeps(j: Job, s: State, key: Key)
    requires Inv(j, s) && Enabled(j, s, Open(key))
    ensures Inv(j, Step(j, s, Open(key)))
  {
    hide Load, Partition, Reached, ShardState, EventAt, IsKey, Fits, SlotsFit;
    var r := Step(j, s, Open(key));
    KeyIn(j, key);
    assert Fits(j, s, key);
    OpenFits(j, s, key);
    OtherKeysKeep(j, s, r, key);
    SlotsKeep(j, s, r, key);
  }

  lemma OpenFits(j: Job, s: State, key: Key)
    requires Enabled(j, s, Open(key)) && Fits(j, s, key)
    ensures Fits(j, Step(j, s, Open(key)), key)
  {
    hide Load, Partition, ShardState, EventAt, IsKey;
    ReachedFirst(j, key);
  }

  lemma MineKeeps(j: Job, s: State, key: Key)
    requires OwnFiles(j) && Inv(j, s) && Enabled(j, s, Mine(key))
    ensures Inv(j, Step(j, s, Mine(key)))
  {
    hide Load, Partition, Reached, ShardState, EventAt, IsKey, Stored, KeyAt, Fits, SlotsFit, OwnFiles, Keys;
    var r := Step(j, s, Mine(key));
    KeyIn(j, key);
    assert Fits(j, s, key);
    MineFits(j, s, key);
    var position := Partition(j, key)[|s.workers[key].events|];
    OthersFiles(j, s.files, key, j.miner.mine(s.workers[key].state, j.records[position]));
    OtherKeysKeep(j, s, r, key);
    SlotsKeep(j, s, r, key);
  }

  lemma MineFits(j: Job, s: State, key: Key)
    requires Enabled(j, s, Mine(key)) && Fits(j, s, key)
    ensures |s.workers[key].events| < |Partition(j, key)|
    ensures Partition(j, key)[|s.workers[key].events|] < |j.records|
    ensures Fits(j, Step(j, s, Mine(key)), key)
  {
    hide Load, Partition, Reached, ShardState, Expected, IsKey, Stored, KeyAt;
    var w := s.workers[key];
    var n := |w.events|;
    ReachedHere(j, key, n);
    ReachedNext(j, key, n);
    forall x | 0 <= x < n + 1
      ensures (w.events + [EventAt(j, Partition(j, key)[n])])[x] == EventAt(j, Partition(j, key)[x])
    {
    }
  }

  lemma ReachedHere(j: Job, key: Key, n: nat)
    requires n < |Partition(j, key)|
    ensures Reached(j, key, n) == Partition(j, key)[n] < |j.records|
  {
    assert Partition(j, key)[n] in Partition(j, key);
  }

  lemma CollectKeeps(j: Job, s: State, key: Key)
    requires Inv(j, s) && Enabled(j, s, Collect(key))
    ensures Inv(j, Step(j, s, Collect(key)))
  {
    hide Load, Reached, ShardState, EventAt, IsKey, KeyOf, Fits, SlotsFit, Keys, Partition;
    var r := Step(j, s, Collect(key));
    KeyIn(j, key);
    assert Fits(j, s, key);
    CollectFits(j, s, key);
    OtherKeysKeep(j, s, r, key);
    CollectFills(j, s, key);
  }

  lemma CollectFits(j: Job, s: State, key: Key)
    requires Enabled(j, s, Collect(key)) && Fits(j, s, key)
    ensures Fits(j, Step(j, s, Collect(key)), key)
    ensures forall x :: 0 <= x < |Partition(j, key)| ==> s.workers[key].events[x] == EventAt(j, Partition(j, key)[x])
  {
  }

  lemma PartitionIs(j: Job, key: Key)
    ensures forall i: nat :: i in Partition(j, key) <==> i < |j.records| && KeyAt(j, i) == key
    ensures forall x, y :: 0 <= x < y < |Partition(j, key)| ==> Partition(j, key)[x] < Partition(j, key)[y]
  {
  }

  lemma CollectStep(j: Job, s: State, key: Key)
    requires Enabled(j, s, Collect(key)) && key in Keys(j) && s.workers.Keys <= Keys(j)
    ensures var r := Step(j, s, Collect(key)); var positions := Partition(j, key);
            && key in s.workers && s.workers[key].Mining? && |s.workers[key].events| == |positions|
            && r.slots == Filled(s.slots, positions, s.workers[key].events)
            && r.processed == s.processed + |positions| && r.partitions == s.partitions + 1
            && Done(r) == Done(s) + {key} && key !in Done(s) && r.workers.Keys <= Keys(j)
  {
    hide IsKey, Partition, Filled, Keys;
  }

  lemma CollectFills(j: Job, s: State, key: Key)
    requires SlotsFit(j, s) && Enabled(j, s, Collect(key)) && key in Keys(j)
    requires forall x :: 0 <= x < |Partition(j, key)| ==> s.workers[key].events[x] == EventAt(j, Partition(j, key)[x])
    ensures SlotsFit(j, Step(j, s, Collect(key)))
  {
    hide EventAt, KeyAt, Partition, Filled, Keys, Step, Enabled, Done;
    CollectStep(j, s, key);
    PartitionIs(j, key);
    var positions, events := Partition(j, key), s.workers[key].events;
    FilledKeys(s.slots, positions, events);
    FilledFits(j, s.slots, positions, events);
    assert |Done(s) + {key}| == |Done(s)| + 1;
  }

  lemma FilledFits(j: Job, slots: map<nat, Event>, positions: seq<nat>, events: seq<Event>)
    requires |positions| == |events| && forall x, y :: 0 <= x < y < |positions| ==> positions[x] < positions[y]
    requires forall p :: p in positions ==> p !in slots
    requires forall x :: 0 <= x < |positions| ==> events[x] == EventAt(j, positions[x])
    requires forall i :: i in slots ==> slots[i] == EventAt(j, i)
    ensures forall i :: i in Filled(slots, positions, events) ==> Filled(slots, positions, events)[i] == EventAt(j, i)
  {
    hide EventAt, Filled;
    FilledKeys(slots, positions, events);
    FilledValues(slots, positions, events);
    var r := Filled(slots, positions, events);
    forall i | i in r ensures r[i] == EventAt(j, i) {
      if i in positions { var x :| 0 <= x < |positions| && positions[x] == i; }
    }
  }

  lemma StepKeepsInv(j: Job, s: State, a: Action)
    requires OwnFiles(j) && Inv(j, s) && Enabled(j, s, a)
    ensures Inv(j, Step(j, s, a))
    ensures Step(j, s, a).partitions >= s.partitions && Step(j, s, a).processed >= s.processed
  {
    hide Inv, Enabled;
    match a
    case Open(key) => OpenKeeps(j, s, key);
    case Mine(key) => MineKeeps(j, s, key);
    case Collect(key) => CollectKeeps(j, s, key);
  }

  function Run(j: Job, s: State, actions: seq<Action>): State
    decreases |actions|
  {
    if actions == [] then s else Run(j, if Enabled(j, s, actions[0]) then Step(j, s, actions[0]) else s, actions[1..])
  }

  lemma {:induction false} RunKeepsInv(j: Job, s: State, actions: seq<Action>)
    requires OwnFiles(j) && Inv(j, s)
    ensures Inv(j, Run(j, s, actions))
    ensures Run(j, s, actions).partitions >= s.partitions && Run(j, s, actions).processed >= s.processed
    decreases |actions|
  {
    hide Inv, Enabled, Step;
    if actions != [] {
      if Enabled(j, s, actions[0]) { StepKeepsInv(j, s, actions[0]); }
      RunKeepsInv(j, if Enabled(j, s, actions[0]) then Step(j, s, actions[0]) else s, actions[1..]);
    }
  }

  lemma StartInv(j: Job)
    ensures Inv(j, Start(j))
  {
    assert Done(Start(j)) == {};
  }

  /** Whatever the workers' interleaving and the order of completion: once every partition is collected no slot is
      empty, event `i` is the shared manager's for record `i`, and the counters stand at the totals. */
  lemma ParallelIsSequential(j: Job, actions: seq<Action>)
    requires OwnFiles(j) && Done(Run(j, Start(j), actions)) == Keys(j)
    ensures var s := Run(j, Start(j), actions); var shared := SharedRun(j, |j.records|);
            && |shared.events| == |j.records| && s.slots.Keys == Indices(|j.records|)
            && (forall i :: 0 <= i < |j.records| ==> i in s.slots && s.slots[i] == shared.events[i])
            && s.partitions == |Keys(j)| && s.processed == |j.records|
  {
    hide *;
    StartInv(j);
    RunKeepsInv(j, Start(j), actions);
    SharedIsExpected(j, |j.records|);
    SharedEvents(j, SharedRun(j, |j.records|));
    AllCollected(j, Run(j, Start(j), actions));
  }

  lemma SharedEvents(j: Job, s: Shared)
    requires SharedAt(j, s, |j.records|)
    ensures |s.events| == |j.records| && forall i :: 0 <= i < |j.records| ==> s.events[i] == EventAt(j, i)
  {
    hide ShardState;
  }

  lemma AllCollected(j: Job, s: State)
    requires Inv(j, s) && Done(s) == Keys(j)
    ensures s.slots.Keys == Indices(|j.records|) && s.partitions == |Keys(j)| && s.processed == |j.records|
    ensures forall i :: 0 <= i < |j.records| ==> i in s.slots && s.slots[i] == EventAt(j, i)
  {
    hide Fits, EventAt, KeyAt, Done, Keys;
    KeysCover(j);
    assert s.slots.Keys == Indices(|j.records|);
  }

  lemma KeysCover(j: Job)
    ensures forall i :: 0 <= i < |j.records| ==> KeyAt(j, i) in Keys(j)
  {
  }

  function Indices(n: nat): (s: set<nat>)
    ensures |s| == n && forall i: nat :: i in s <==> i < n
  {
    if n == 0 then {} else Indices(n - 1) + {n - 1}
  }

  /** Until then some worker can go on. */
  lemma SomeoneCanGo(j: Job, s: State) returns (a: Action)
    requires Inv(j, s) && Done(s) != Keys(j)
    ensures Enabled(j, s, a)
  {
    hide Load, Reached, ShardState, EventAt, Partition;
    assert exists key :: key in Keys(j) && key !in Done(s) by {
      assert forall key :: key in Done(s) ==> key in Keys(j);
    }
    var key :| key in Keys(j) && key !in Done(s);
    KeyIn(j, key);
    assert Fits(j, s, key);
    a := match WorkerOf(s, key)
      case Waiting => Open(key)
      case Mining(_, events) => if |events| < |Partition(j, key)| then Mine(key) else Collect(key)
      case Collected => Open(key);
  }

  // ----- the manager and the batch -----

  class StateDir {
    var files: Files

    constructor (files: Files)
      ensures this.files == files
    {
      this.files := files;
    }
  }

  class ShardManager {
    const miner: Miner
    const dir: StateDir
    var miners: map<Key, MinerState>

    constructor (miner: Miner, dir: StateDir)
      ensures this.miner == miner && this.dir == dir && miners == map[]
    {
      this.miner, this.dir, miners := miner, dir, map[];
    }

    /** `get_miner` and the miner's own step. */
    method MineEvent(key: Key, r: Record) returns (event: Event)
      modifies this, dir
      ensures var was := Shared(old(miners), old(dir.files), []);
              Shared(miners, dir.files, [event]) == SharedStep(miner, was, key, r)
    {
      if key !in miners {
        miners := miners[key := Load(miner, dir.files, key)];
      }
      var mined := miner.mine(miners[key], r);
      miners := miners[key := mined.state];
      if mined.saves {
        dir.files := dir.files[FileOf(key) := mined.state];
      }
      event := mined.event;
    }
  }

  /** Mining a shard's next record from the state the shard has there. */
  lemma NextOfShard(j: Job, files: Files, key: Key, n: nat)
    requires OwnFiles(j) && key in Keys(j) && n < |Partition(j, key)|
    ensures n == 0 ==> ShardState(j, key, Reached(j, key, n)) == Load(j.miner, j.files, key)
    ensures Partition(j, key)[n] < |j.records|
    ensures var p := Partition(j, key)[n]; var mined := j.miner.mine(ShardState(j, key, Reached(j, key, n)), j.records[p]);
            && mined.event == EventAt(j, p) && mined.state == ShardState(j, key, Reached(j, key, n + 1))
            && forall k :: k in Keys(j) && k != key ==> Load(j.miner, Stored(files, key, mined), k) == Load(j.miner, files, k)
  {
    hide Load, Partition, ShardState, Expected, Keys, OwnFiles, KeyAt, Stored, Reached;
    ReachedFirst(j, key);
    ReachedHere(j, key, n);
    ReachedNext(j, key, n);
    var p := Partition(j, key)[n];
    OthersFiles(j, files, key, j.miner.mine(ShardState(j, key, p), j.records[p]));
  }

  /** `_mine_indexed_partition`: a manager of its own over one shard's records. */
  method MinePartition(j: Job, dir: StateDir, key: Key, positions: seq<nat>) returns (events: seq<Event>)
    requires OwnFiles(j) && key in Keys(j) && positions == Partition(j, key)
    requires OnFile(dir.files, key) == OnFile(j.files, key)
    modifies dir
    ensures |events| == |positions| && forall x :: 0 <= x < |events| ==> events[x] == EventAt(j, positions[x])
    ensures OnFile(dir.files, key) == FileState(j, key, |j.records|) && OtherFilesStay(old(dir.files), dir.files, key)
  {
    hide Load, Partition, ShardState, Expected, EventAt, Keys, OwnFiles, KeyAt, Stored, Reached, OnFile, FileState, OtherFilesStay, FileOf;
    var manager := new ShardManager(j.miner, dir);
    events := [];
    ReachedFirst(j, key);
    FileFirst(j, key);
    FilesStay(dir.files, key);
    SameLoad(j, dir.files, key);
    ghost var before := dir.files;
    for x := 0 to |positions|
      invariant |events| == x && forall y :: 0 <= y < x ==> events[y] == EventAt(j, positions[y])
      invariant if x == 0 then manager.miners == map[] && dir.files == old(dir.files)
                else key in manager.miners && manager.miners[key] == ShardState(j, key, Reached(j, key, x))
      invariant OnFile(dir.files, key) == FileState(j, key, Reached(j, key, x)) && OtherFilesStay(before, dir.files, key)
    {
      NextOfShard(j, dir.files, key, x);
      FileNext(j, key, x);
      ReachedHere(j, key, x);
      ghost var was := dir.files;
      StoredIs(was, key, j.miner.mine(ShardState(j, key, positions[x]), j.records[positions[x]]));
      var event := manager.MineEvent(key, j.records[positions[x]]);
      OthersStayThrough(before, was, dir.files, key);
      events := events + [event];
    }
    ReachedEnd(j, key);
  }

  lemma ReachedEnd(j: Job, key: Key)
    ensures Reached(j, key, |Partition(j, key)|) == |j.records|
  {
  }

  lemma FilesStay(files: Files, key: Key)
    ensures OtherFilesStay(files, files, key)
  {
  }

  lemma SameLoad(j: Job, files: Files, key: Key)
    requires OnFile(files, key) == OnFile(j.files, key)
    ensures Load(j.miner, files, key) == Load(j.miner, j.files, key)
  {
  }

  function KeysBefore(j: Job, n: nat): set<Key>
    requires n <= |j.records|
  {
    set i | 0 <= i < n :: KeyAt(j, i)
  }

  function PartitionsAt(j: Job, n: nat): map<Key, seq<nat>>
    requires n <= |j.records|
  {
    map k | k in KeysBefore(j, n) :: Positions(j, k, n)
  }

  lemma PartitionsGrow(j: Job, n: nat)
    requires n < |j.records|
    ensures var before, key := PartitionsAt(j, n), KeyAt(j, n);
            PartitionsAt(j, n + 1) == before[key := (if key in before then before[key] else []) + [n]]
  {
    hide KeyOf;
    assert KeysBefore(j, n + 1) == KeysBefore(j, n) + {KeyAt(j, n)};
    if KeyAt(j, n) !in KeysBefore(j, n) { Unseen(j, KeyAt(j, n), n); }
  }

  lemma Unseen(j: Job, key: Key, n: nat)
    requires n <= |j.records| && key !in KeysBefore(j, n)
    ensures Positions(j, key, n) == []
  {
    assert forall p :: p !in Positions(j, key, n);
  }

  /** Groups the positions of the input by shard, shards in order of appearance. */
  method PartitionRecords(j: Job) returns (partitions: map<Key, seq<nat>>, order: seq<Key>)
    ensures partitions.Keys == Keys(j) && forall k :: k in partitions ==> partitions[k] == Partition(j, k)
    ensures (forall k :: k in order <==> k in Keys(j)) && forall x, y :: 0 <= x < y < |order| ==> order[x] != order[y]
  {
    hide *;
    partitions, order := map[], [];
    PartitionsEnds(j);
    for i := 0 to |j.records|
      invariant partitions == PartitionsAt(j, i)
      invariant (forall k :: k in order <==> k in partitions) && forall x, y :: 0 <= x < y < |order| ==> order[x] != order[y]
    {
      PartitionsGrow(j, i);
      var key := KeyAt(j, i);
      if key !in partitions {
        partitions, order := partitions[key := []], order + [key];
      }
      partitions := partitions[key := partitions[key] + [i]];
    }
  }

  lemma PartitionsEnds(j: Job)
    ensures PartitionsAt(j, 0) == map[] && PartitionsAt(j, |j.records|).Keys == Keys(j)
    ensures forall k :: k in PartitionsAt(j, |j.records|) ==> PartitionsAt(j, |j.records|)[k] == Partition(j, k)
  {
    hide KeyOf;
    assert KeysBefore(j, |j.records|) == Keys(j);
  }

  ghost predicate Matches(slots: map<nat, Event>, ordered: seq<Option<Event>>) {
    forall i :: 0 <= i < |ordered| ==> ordered[i] == if i in slots then Some(slots[i]) else None
  }

  /** `collect`: writes the events of one partition into their slots. */
  method CollectEvents(ordered: array<Option<Event>>, positions: seq<nat>, events: seq<Event>, ghost slots: map<nat, Event>)
    requires |positions| == |events| && (forall x, y :: 0 <= x < y < |positions| ==> positions[x] < positions[y])
    requires (forall p :: p in positions ==> p < ordered.Length && p !in slots) && Matches(slots, ordered[..])
    modifies ordered
    ensures Matches(Filled(slots, positions, events), ordered[..])
  {
    for x := 0 to |positions|
      invariant Matches(Filled(slots, positions[..x], events[..x]), ordered[..])
    {
      assert positions[..x + 1][..x] == positions[..x] && events[..x + 1][..x] == events[..x];
      assert positions[x] in positions;
      ordered[positions[x]] := Some(events[x]);
    }
    assert positions[..|positions|] == positions && events[..|events|] == events;
  }

  datatype Progress = Progress(partitions: nat, processed: nat)

  ghost predicate Rising(reports: seq<Progress>) {
    forall x, y :: 0 <= x < y < |reports| ==> reports[x].partitions <= reports[y].partitions && reports[x].processed <= reports[y].processed
  }

  /** The slots after some partitions: theirs are filled, each with the expected event. */
  ghost predicate SlotsOf(j: Job, slots: map<nat, Event>, done: set<Key>) {
    && (forall i: nat :: i in slots <==> i < |j.records| && KeyAt(j, i) in done)
    && forall i :: i in slots ==> slots[i] == EventAt(j, i)
  }

  lemma SlotsGrow(j: Job, slots: map<nat, Event>, done: set<Key>, key: Key, events: seq<Event>)
    requires SlotsOf(j, slots, done) && key !in done && |events| == |Partition(j, key)|
    requires forall x :: 0 <= x < |events| ==> events[x] == EventAt(j, Partition(j, key)[x])
    ensures forall p :: p in Partition(j, key) ==> p < |j.records| && p !in slots
    ensures var r := Filled(slots, Partition(j, key), events); SlotsOf(j, r, done + {key}) && |r| == |slots| + |events|
  {
    hide EventAt, KeyAt, Partition, Filled;
    PartitionIs(j, key);
    FilledKeys(slots, Partition(j, key), events);
    FilledFits(j, slots, Partition(j, key), events);
  }

  lemma SlotsEnd(j: Job, slots: map<nat, Event>)
    requires SlotsOf(j, slots, Keys(j))
    ensures slots.Keys == Indices(|j.records|) && |slots| == |j.records|
    ensures forall i :: 0 <= i < |j.records| ==> i in slots && slots[i] == EventAt(j, i)
  {
    hide EventAt, KeyAt, Keys;
    KeysCover(j);
    assert slots.Keys == Indices(|j.records|);
  }

  /** `mine_template_events` with one worker: partition after partition, events back in input order. */
  method MineTemplateEvents(j: Job, dir: StateDir) returns (events: seq<Event>, reports: seq<Progress>)
    requires OwnFiles(j) && dir.files == j.files
    modifies dir
    ensures events == SharedRun(j, |j.records|).events
    ensures Rising(reports) && |reports| == |Keys(j)| + 1 && reports[0] == Progress(0, 0)
    ensures reports[|reports| - 1] == Progress(|Keys(j)|, |j.records|)
    ensures dir.files == SharedRun(j, |j.records|).files
  {
    hide *;
    var partitions, order := PartitionRecords(j);
    var ordered := new Option<Event>[|j.records|](i => None);
    reports := [Progress(0, 0)];
    ghost var slots: map<nat, Event>, done: set<Key> := map[], {};
    assert SlotsOf(j, slots, done) by { NoSlots(j); }
    assert Matches(slots, ordered[..]) by { NothingMatches(ordered[..]); }
    assert Rising(reports) by { OneReport(reports); }
    TakenNone(order);
    FilesWhenNone(j);
    for x := 0 to |order|
      invariant done == Taken(order, x) && |done| == x && SlotsOf(j, slots, done) && Matches(slots, ordered[..])
      invariant FilesWhen(j, dir.files, done)
      invariant |reports| == x + 1 && reports[0] == Progress(0, 0) && reports[x] == Progress(x, |slots|) && Rising(reports)
    {
      var key := order[x];
      TakenGrows(order, x);
      NotBegun(j, dir.files, done, key);
      ghost var was := dir.files;
      var mined := MinePartition(j, dir, key, partitions[key]);
      FilesWhenNext(j, was, dir.files, done, key);
      SlotsGrow(j, slots, done, key, mined);
      PartitionIs(j, key);
      CollectEvents(ordered, partitions[key], mined, slots);
      slots, done := Filled(slots, partitions[key], mined), done + {key};
      RisingGrows(reports, Progress(x + 1, reports[x].processed + |mined|));
      reports := reports + [Progress(x + 1, reports[x].processed + |mined|)];
    }
    TakenAll(j, order);
    SlotsEnd(j, slots);
    SharedIsExpected(j, |j.records|);
    SharedEvents(j, SharedRun(j, |j.records|));
    FilesWhenAll(j, dir.files);
    SharedFilesAfter(j, |j.records|);
    FilesAreOne(j, dir.files, SharedRun(j, |j.records|).files, |j.records|);
    events := FilledSlots(ordered[..], slots, SharedRun(j, |j.records|).events);
  }

  /** The filled slots in order; here they are all filled. */
  method FilledSlots(ordered: seq<Option<Event>>, ghost slots: map<nat, Event>, ghost expected: seq<Event>) returns (events: seq<Event>)
    requires Matches(slots, ordered) && |expected| == |ordered|
    requires forall i :: 0 <= i < |ordered| ==> i in slots && slots[i] == expected[i]
    ensures events == expected
  {
    events := [];
    for i := 0 to |ordered|
      invariant events == expected[..i]
    {
      if ordered[i].Some? {
        events := events + [ordered[i].value];
      }
    }
  }

  function Taken(order: seq<Key>, n: nat): set<Key>
    requires n <= |order|
  {
    set x | 0 <= x < n :: order[x]
  }

  lemma TakenGrows(order: seq<Key>, n: nat)
    requires n < |order| && forall x, y :: 0 <= x < y < |order| ==> order[x] != order[y]
    ensures Taken(order, n + 1) == Taken(order, n) + {order[n]} && order[n] !in Taken(order, n)
  {
  }

  lemma TakenNone(order: seq<Key>)
    ensures Taken(order, 0) == {}
  {
  }

  lemma TakenAll(j: Job, order: seq<Key>)
    requires forall k :: k in order <==> k in Keys(j)
    ensures Taken(order, |order|) == Keys(j)
  {
    hide Keys;
    assert forall k :: k in Taken(order, |order|) <==> k in order;
  }

  lemma NoSlots(j: Job)
    ensures SlotsOf(j, map[], {})
  {
  }

  lemma NothingMatches(ordered: seq<Option<Event>>)
    requires forall i :: 0 <= i < |ordered| ==> ordered[i] == None
    ensures Matches(map[], ordered)
  {
  }

  lemma OneReport(reports: seq<Progress>)
    requires |reports| == 1
    ensures Rising(reports)
  {
  }

  lemma RisingGrows(reports: seq<Progress>, next: Progress)
    requires Rising(reports) && reports != []
    requires reports[|reports| - 1].partitions <= next.partitions && reports[|reports| - 1].processed <= next.processed
    ensures Rising(reports + [next])
  {
  }
}
