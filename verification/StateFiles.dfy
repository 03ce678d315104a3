/**
 When mining in parallel is mining in sequence: exactly when no two shards of the input share a state file. Shards that
 do share one read each other's states, so the order in which workers come shows in the events.
 */
module StateFiles {
  import opened Prelude
  import opened Mining

  /** A miner that counts what it has seen, and tells. */
  const COUNTING := Miner("", (state: MinerState, r: Record) => Mined(state + "*", state, true))

  function Input(miner: Miner, files: Files, records: seq<Record>, byNode: bool): Job { Job(miner, files, records, byNode) }

  /** Every slot holds what one shared manager yields there. */
  ghost predicate Agrees(j: Job, s: State) {
    var shared := SharedRun(j, |j.records|).events;
    |shared| == |j.records| && forall i :: 0 <= i < |j.records| ==> i in s.slots && s.slots[i] == shared[i]
  }

  ghost predicate AgreesAfter(j: Job, actions: seq<Action>) {
    Done(Run(j, Start(j), actions)) == Keys(j) ==> Agrees(j, Run(j, Start(j), actions))
  }

  ghost predicate AlwaysAgrees(files: Files, records: seq<Record>, byNode: bool) {
    forall miner: Miner, actions: seq<Action> :: AgreesAfter(Input(miner, files, records, byNode), actions)
  }

  /** For given files and records: every miner, over every completing interleaving of the workers, yields the shared
      manager's events if and only if the shards have files of their own. */
  lemma ParallelIsSequentialExactly(files: Files, records: seq<Record>, byNode: bool)
    ensures AlwaysAgrees(files, records, byNode) <==> OwnFiles(Input(COUNTING, files, records, byNode))
  {
    hide Run, Start, Keys, Done, SharedRun;
    var j := Input(COUNTING, files, records, byNode);
    if OwnFiles(j) {
      forall miner: Miner, actions: seq<Action> ensures AgreesAfter(Input(miner, files, records, byNode), actions) {
        OwnFilesAgree(j, Input(miner, files, records, byNode), actions);
      }
    } else {
      var actions := Diverges(j);
      assert !AgreesAfter(Input(COUNTING, files, records, byNode), actions);
    }
  }

  lemma OwnFilesAgree(j: Job, other: Job, actions: seq<Action>)
    requires OwnFiles(j) && other.records == j.records && other.byNode == j.byNode
    ensures AgreesAfter(other, actions)
  {
    hide Run, Start, Keys, Done, SharedRun, FileOf, KeyOf;
    assert forall a :: 0 <= a < |j.records| ==> KeyAt(other, a) == KeyAt(j, a);
    if Done(Run(other, Start(other), actions)) == Keys(other) { ParallelIsSequential(other, actions); }
  }

  // ----- one shard after another -----

  function MineTimes(key: Key, n: nat): seq<Action> { if n == 0 then [] else [Mine(key)] + MineTimes(key, n - 1) }

  /** One worker from start to end. */
  function Whole(j: Job, key: Key): seq<Action> { [Open(key)] + MineTimes(key, |Partition(j, key)|) + [Collect(key)] }

  lemma {:induction false} RunConcat(j: Job, s: State, a: seq<Action>, b: seq<Action>)
    ensures Run(j, s, a + b) == Run(j, Run(j, s, a), b)
    decreases |a|
  {
    hide Step, Enabled;
    if a == [] {
      assert a + b == b;
    } else {
      assert (a + b)[0] == a[0] && (a + b)[1..] == a[1..] + b;
      RunConcat(j, if Enabled(j, s, a[0]) then Step(j, s, a[0]) else s, a[1..], b);
    }
  }

  lemma RunOne(j: Job, s: State, a: Action)
    requires Enabled(j, s, a)
    ensures Run(j, s, [a]) == Step(j, s, a)
  {
    hide Step, Enabled;
    assert [a][1..] == [];
  }

  lemma {:induction false} MinesAll(j: Job, s: State, key: Key, n: nat)
    requires j.miner == COUNTING && IsKey(j, key) && WorkerOf(s, key).Mining? && |WorkerOf(s, key).events| + n == |Partition(j, key)|
    ensures var r := Run(j, s, MineTimes(key, n)); var w := WorkerOf(s, key); var v := WorkerOf(r, key);
            && r.slots == s.slots && r.workers == s.workers[key := v] && v.Mining? && |v.events| == |Partition(j, key)|
            && w.events <= v.events && (n > 0 ==> v.events[|w.events|] == w.state)
            && (n > 0 ==> FileOf(key) in r.files && |r.files[FileOf(key)]| == |w.state| + n)
    decreases n
  {
    hide Partition, FileOf, IsKey;
    if n == 0 {
      assert s.workers[key := s.workers[key]] == s.workers;
    } else {
      var t := Step(j, s, Mine(key));
      var w := WorkerOf(s, key);
      MinedOnce(j, s, key);
      MineFirst(j, s, key, n);
      MinesAll(j, t, key, n - 1);
      assert (w.events + [w.state])[|w.events|] == w.state;
    }
  }

  lemma MineFirst(j: Job, s: State, key: Key, n: nat)
    requires n > 0 && Enabled(j, s, Mine(key))
    ensures Run(j, s, MineTimes(key, n)) == Run(j, Step(j, s, Mine(key)), MineTimes(key, n - 1))
  {
    hide Step, Enabled;
    assert MineTimes(key, n)[1..] == MineTimes(key, n - 1);
  }

  lemma MinedOnce(j: Job, s: State, key: Key)
    requires j.miner == COUNTING && Enabled(j, s, Mine(key))
    ensures var r := Step(j, s, Mine(key)); var w := s.workers[key];
            && r.slots == s.slots && r.workers == s.workers[key := Mining(w.state + "*", w.events + [w.state])]
            && FileOf(key) in r.files && r.files[FileOf(key)] == w.state + "*"
  {
    hide Partition, FileOf, IsKey;
  }

  lemma {:induction false} FilledKeeps(slots: map<nat, Event>, positions: seq<nat>, events: seq<Event>)
    requires |positions| == |events|
    ensures forall p :: p in slots && p !in positions ==> p in Filled(slots, positions, events) && Filled(slots, positions, events)[p] == slots[p]
  {
    if positions != [] {
      var n := |positions| - 1;
      assert positions == positions[..n] + [positions[n]];
      FilledKeeps(slots, positions[..n], events[..n]);
    }
  }

  /** A shard mined without interruption: its first event is the state it found, and its file holds a longer one. */
  lemma ShardAlone(j: Job, s: State, key: Key)
    requires j.miner == COUNTING && IsKey(j, key) && WorkerOf(s, key).Waiting?
    ensures var r := Run(j, s, Whole(j, key)); var ps := Partition(j, key);
            && r.workers == s.workers[key := Collected] && |ps| > 0
            && ps[0] in r.slots && r.slots[ps[0]] == Load(j.miner, s.files, key)
            && (forall p :: p in s.slots && p !in ps ==> p in r.slots && r.slots[p] == s.slots[p])
            && |Load(j.miner, r.files, key)| > |Load(j.miner, s.files, key)|
  {
    hide Partition, FileOf, Filled, Run, MineTimes;
    PartitionIs(j, key);
    KeyHasRecords(j, key);
    var n := |Partition(j, key)|;
    var t := Step(j, s, Open(key));
    RunOne(j, s, Open(key));
    RunConcat(j, s, [Open(key)], MineTimes(key, n));
    MinesAll(j, t, key, n);
    var u := Run(j, t, MineTimes(key, n));
    var events := u.workers[key].events;
    RunOne(j, u, Collect(key));
    RunConcat(j, s, [Open(key)] + MineTimes(key, n), [Collect(key)]);
    FilledValues(s.slots, Partition(j, key), events);
    FilledKeeps(s.slots, Partition(j, key), events);
  }

  lemma KeyHasRecords(j: Job, key: Key)
    requires IsKey(j, key)
    ensures |Partition(j, key)| > 0
  {
    PartitionIs(j, key);
    var i: nat :| i < |j.records| && KeyAt(j, i) == key;
    assert i in Partition(j, key);
  }

  lemma Apart(j: Job, a: Key, b: Key)
    requires a != b
    ensures forall p :: p in Partition(j, a) ==> p !in Partition(j, b)
  {
    PartitionIs(j, a);
    PartitionIs(j, b);
  }

  predicate KeepsSlot(s: State, r: State, p: nat) { p in s.slots ==> p in r.slots && r.slots[p] == s.slots[p] }

  /** Slots of shards not in `todo` stay as they are. */
  ghost predicate KeepsOthers(j: Job, s: State, r: State, todo: set<Key>) {
    forall k, p :: k !in todo && p in Partition(j, k) ==> KeepsSlot(s, r, p)
  }

  ghost predicate AllWaiting(j: Job, s: State, todo: set<Key>) { forall k :: k in todo ==> IsKey(j, k) && WorkerOf(s, k).Waiting? }

  lemma OneDone(j: Job, s: State, key: Key, todo: set<Key>)
    requires j.miner == COUNTING && key in todo && AllWaiting(j, s, todo)
    ensures var t := Run(j, s, Whole(j, key));
            && AllWaiting(j, t, todo - {key}) && Done(t) == Done(s) + {key}
            && forall p :: p in s.slots && p !in Partition(j, key) ==> p in t.slots && t.slots[p] == s.slots[p]
  {
    hide Partition, IsKey, Whole, Run, Load;
    ShardAlone(j, s, key);
  }

  /** The shards of `todo`, one after another. */
  lemma {:induction false} Finish(j: Job, s: State, todo: set<Key>) returns (actions: seq<Action>)
    requires j.miner == COUNTING && AllWaiting(j, s, todo)
    ensures Done(Run(j, s, actions)) == Done(s) + todo && KeepsOthers(j, s, Run(j, s, actions), todo)
    decreases |todo|
  {
    hide *;
    if todo == {} {
      actions := [];
      RunNothing(j, s);
    } else {
      var key :| key in todo;
      var t := Run(j, s, Whole(j, key));
      OneDone(j, s, key, todo);
      var rest := Finish(j, t, todo - {key});
      actions := Whole(j, key) + rest;
      RunConcat(j, s, Whole(j, key), rest);
      assert Done(s) + {key} + (todo - {key}) == Done(s) + todo;
      KeepsThrough(j, s, t, Run(j, s, actions), todo, key);
    }
  }

  lemma KeepsThrough(j: Job, s: State, t: State, r: State, todo: set<Key>, key: Key)
    requires key in todo && KeepsOthers(j, t, r, todo - {key})
    requires forall p :: p in s.slots && p !in Partition(j, key) ==> p in t.slots && t.slots[p] == s.slots[p]
    ensures KeepsOthers(j, s, r, todo)
  {
    hide Partition;
    forall k, p | k !in todo && p in Partition(j, k) ensures KeepsSlot(s, r, p) {
      Apart(j, k, key);
      assert KeepsSlot(t, r, p);
    }
  }

  lemma RunNothing(j: Job, s: State)
    ensures Run(j, s, []) == s && forall todo :: KeepsOthers(j, s, s, todo)
  {
  }

  // ----- two orders -----

  lemma FirstKeyThenRest(j: Job, key: Key) returns (actions: seq<Action>)
    requires j.miner == COUNTING && IsKey(j, key)
    ensures |Partition(j, key)| > 0
    ensures var r := Run(j, Start(j), actions);
            Done(r) == Keys(j) && Partition(j, key)[0] in r.slots && r.slots[Partition(j, key)[0]] == Load(j.miner, j.files, key)
  {
    hide Partition, IsKey, Whole, Run;
    var s := Start(j);
    ShardAlone(j, s, key);
    var t := Run(j, s, Whole(j, key));
    KeysAre(j);
    var rest := Finish(j, t, Keys(j) - {key});
    actions := Whole(j, key) + rest;
    RunConcat(j, s, Whole(j, key), rest);
    assert Done(t) == {key};
    assert KeepsSlot(t, Run(j, t, rest), Partition(j, key)[0]);
  }

  lemma OtherKeyBefore(j: Job, other: Key, key: Key) returns (actions: seq<Action>)
    requires j.miner == COUNTING && IsKey(j, other) && IsKey(j, key) && other != key && FileOf(other) == FileOf(key)
    ensures |Partition(j, key)| > 0
    ensures var r := Run(j, Start(j), actions); var p := Partition(j, key)[0];
            Done(r) == Keys(j) && p in r.slots && |r.slots[p]| > |Load(j.miner, j.files, key)|
  {
    hide Partition, IsKey, Whole, Run, FileOf;
    var s := Start(j);
    ShardAlone(j, s, other);
    var t := Run(j, s, Whole(j, other));
    ShardAlone(j, t, key);
    var u := Run(j, t, Whole(j, key));
    KeysAre(j);
    var rest := Finish(j, u, Keys(j) - {other, key});
    actions := Whole(j, other) + (Whole(j, key) + rest);
    RunConcat(j, s, Whole(j, other), Whole(j, key) + rest);
    RunConcat(j, t, Whole(j, key), rest);
    assert Done(u) == {other, key};
    assert KeepsSlot(u, Run(j, u, rest), Partition(j, key)[0]);
  }

  lemma KeysAre(j: Job)
    ensures forall k :: k in Keys(j) <==> IsKey(j, k)
  {
    forall k ensures k in Keys(j) <==> IsKey(j, k) { KeyIn(j, k); }
  }

  /** Two shards with one file: of the two orders one yields something else than the shared manager. */
  lemma Diverges(j: Job) returns (actions: seq<Action>)
    requires j.miner == COUNTING && !OwnFiles(j)
    ensures Done(Run(j, Start(j), actions)) == Keys(j) && !Agrees(j, Run(j, Start(j), actions))
  {
    hide Partition, Run, FileOf, SharedRun, KeyOf;
    var a, b :| 0 <= a < |j.records| && 0 <= b < |j.records| && FileOf(KeyAt(j, a)) == FileOf(KeyAt(j, b)) && KeyAt(j, a) != KeyAt(j, b);
    var other, key := KeyAt(j, a), KeyAt(j, b);
    var first := FirstKeyThenRest(j, key);
    var second := OtherKeyBefore(j, other, key);
    PartitionIs(j, key);
    assert Partition(j, key)[0] in Partition(j, key);
    actions := if Agrees(j, Run(j, Start(j), first)) then second else first;
  }

  // ----- names that collide -----

  lemma SafeParts()
    ensures SafeText("a/b") == "a_b" == SafeText("a_b") && SafeText("a__b") == "a__b" && SafeText("b__s") == "b__s"
    ensures SafeText("a") == "a" && SafeText("s") == "s"
  {
    assert SafeText("b") == "b" && SafeText("s") == "s" && SafeText("_b") == "_b" && SafeText("_s") == "_s";
    assert SafeText("/b") == "_b" && SafeText("__s") == "__s" && SafeText("__b") == "__b";
  }

  /** Blanks and slashes become underscores, and underscores join the parts. */
  lemma NamesCollide()
    ensures FileOf(["a/b", "s", "c"]) == FileOf(["a_b", "s", "c"])
    ensures FileOf(["a__b", "s", "c"]) == FileOf(["a", "b__s", "c"])
  {
    SafeParts();
    hide SafeText, FileOf;
    ThreeParts("a/b", "s", "c");
    ThreeParts("a_b", "s", "c");
    ThreeParts("a__b", "s", "c");
    ThreeParts("a", "b__s", "c");
    assert "a__b" + "__" + "s" == "a" + "__" + "b__s";
  }

  lemma ThreeParts(a: string, b: string, c: string)
    ensures FileOf([a, b, c]) == SafeText(a) + "__" + SafeText(b) + "__" + SafeText(c) + ".bin"
  {
    hide SafeText;
    assert [a, b, c][1..] == [b, c] && [b, c][1..] == [c];
    assert Joined([c]) == SafeText(c) && Joined([b, c]) == SafeText(b) + "__" + SafeText(c);
    assert SafeText(a) + "__" + (SafeText(b) + "__" + SafeText(c)) == SafeText(a) + "__" + SafeText(b) + "__" + SafeText(c);
  }

  const SLASH: Key := ["a/b", "s", "c"]
  const UNDERSCORE: Key := ["a_b", "s", "c"]
  const CLASH := Job(COUNTING, map[], [Record("a/b", "", "s", "c", "x"), Record("a_b", "", "s", "c", "y")], false)

  lemma ClashKeys()
    ensures KeyAt(CLASH, 0) == SLASH && KeyAt(CLASH, 1) == UNDERSCORE && SLASH != UNDERSCORE && FileOf(SLASH) == FileOf(UNDERSCORE)
  {
    hide FileOf;
    NamesCollide();
    assert "a/b"[1] != "a_b"[1];
    assert SLASH[0] != UNDERSCORE[0];
  }

  lemma ClashParts()
    ensures Partition(CLASH, SLASH) == [0] && Partition(CLASH, UNDERSCORE) == [1] && Keys(CLASH) == {SLASH, UNDERSCORE}
  {
    ClashKeys();
    hide FileOf, KeyAt, SLASH, UNDERSCORE;
    assert Positions(CLASH, SLASH, 1) == [0] && Positions(CLASH, UNDERSCORE, 1) == [];
    forall k ensures k in Keys(CLASH) <==> k in {SLASH, UNDERSCORE} {
      if k == SLASH { assert KeyAt(CLASH, 0) == k; }
      if k == UNDERSCORE { assert KeyAt(CLASH, 1) == k; }
    }
  }

  lemma OneMore(j: Job, s: State, actions: seq<Action>, n: nat)
    requires n < |actions| && Enabled(j, s, actions[n])
    ensures Run(j, s, actions[n..]) == Run(j, Step(j, s, actions[n]), actions[n + 1..])
  {
    hide Step, Enabled;
    assert actions[n..][1..] == actions[n + 1..];
  }

  /** A worker's state that has mined its one record, and what it leaves. */
  lemma CountedOne(j: Job, s: State, key: Key, p: nat)
    requires j.miner == COUNTING && p < |j.records| && KeyAt(j, p) == key && Partition(j, key) == [p]
    requires WorkerOf(s, key) == Mining("", [])
    ensures Enabled(j, s, Mine(key))
    ensures Step(j, s, Mine(key)) == s.(files := s.files[FileOf(key) := "*"], workers := s.workers[key := Mining("*", [""])])
  {
    hide Partition, FileOf, KeyAt;
    assert "" + "*" == "*" && [] + [""] == [""];
  }

  lemma CollectedOne(j: Job, s: State, key: Key, p: nat)
    requires p < |j.records| && KeyAt(j, p) == key && Partition(j, key) == [p] && WorkerOf(s, key) == Mining("*", [""])
    ensures Enabled(j, s, Collect(key))
    ensures Step(j, s, Collect(key)).slots == s.slots[p := ""] && Step(j, s, Collect(key)).workers == s.workers[key := Collected]
  {
    hide Partition, FileOf, KeyAt, Filled;
    OneFilled(s.slots, p, "");
  }

  lemma OpenedOne(j: Job, s: State, key: Key, p: nat)
    requires j.miner == COUNTING && s.files == map[] && p < |j.records| && KeyAt(j, p) == key && WorkerOf(s, key).Waiting?
    ensures Enabled(j, s, Open(key)) && Step(j, s, Open(key)) == s.(workers := s.workers[key := Mining("", [])])
  {
    hide FileOf, KeyAt;
  }

  /** Two records of shards with one file. Both workers open it before either writes; the shared manager's second
      shard finds what the first one wrote. */
  lemma OpenedTogether(j: Job, k0: Key, k1: Key)
    requires j.miner == COUNTING && j.files == map[] && |j.records| == 2 && KeyAt(j, 0) == k0 && KeyAt(j, 1) == k1
    requires k0 != k1 && FileOf(k0) == FileOf(k1) && Partition(j, k0) == [0] && Partition(j, k1) == [1]
    ensures var r := Run(j, Start(j), [Open(k0), Open(k1), Mine(k0), Mine(k1), Collect(k0), Collect(k1)]);
            Done(r) == {k0, k1} && r.slots == map[0 := "", 1 := ""]
    ensures SharedRun(j, 2).events == ["", "*"]
  {
    hide Run, Partition, FileOf, KeyAt, SharedRun, Filled, Step, Enabled;
    var actions := [Open(k0), Open(k1), Mine(k0), Mine(k1), Collect(k0), Collect(k1)];
    assert actions[0..] == actions && actions[6..] == [];
    OpenedOne(j, Start(j), k0, 0);
    OneMore(j, Start(j), actions, 0);
    var s1 := Step(j, Start(j), Open(k0));
    OpenedOne(j, s1, k1, 1);
    OneMore(j, s1, actions, 1);
    var s2 := Step(j, s1, Open(k1));
    CountedOne(j, s2, k0, 0);
    OneMore(j, s2, actions, 2);
    var s3 := Step(j, s2, Mine(k0));
    CountedOne(j, s3, k1, 1);
    OneMore(j, s3, actions, 3);
    var s4 := Step(j, s3, Mine(k1));
    CollectedOne(j, s4, k0, 0);
    OneMore(j, s4, actions, 4);
    var s5 := Step(j, s4, Collect(k0));
    CollectedOne(j, s5, k1, 1);
    OneMore(j, s5, actions, 5);
    RunNothing(j, Step(j, s5, Collect(k1)));
    TwoShared(j, k0, k1);
  }

  lemma OneFilled(slots: map<nat, Event>, p: nat, e: Event)
    ensures Filled(slots, [p], [e]) == slots[p := e]
  {
    assert [p][..0] == [] && [e][..0] == [];
  }

  lemma TwoShared(j: Job, k0: Key, k1: Key)
    requires j.miner == COUNTING && j.files == map[] && |j.records| == 2 && KeyAt(j, 0) == k0 && KeyAt(j, 1) == k1
    requires k0 != k1 && FileOf(k0) == FileOf(k1)
    ensures SharedRun(j, 2).events == ["", "*"]
  {
    hide FileOf, KeyAt;
    assert SharedRun(j, 0) == Shared(map[], map[], []);
    assert "" + "*" == "*" && [] + [""] == [""] && [""] + ["*"] == ["", "*"];
    assert SharedRun(j, 1) == Shared(map[k0 := "*"], map[FileOf(k0) := "*"], [""]);
  }

  lemma SharedFileBreaksIt()
    ensures !OwnFiles(CLASH) && SharedRun(CLASH, 2).events == ["", "*"]
    ensures var r := Run(CLASH, Start(CLASH), [Open(SLASH), Open(UNDERSCORE), Mine(SLASH), Mine(UNDERSCORE), Collect(SLASH), Collect(UNDERSCORE)]);
            Done(r) == Keys(CLASH) && r.slots == map[0 := "", 1 := ""]
  {
    hide Run, Partition, FileOf, Keys, SLASH, UNDERSCORE, SharedRun, KeyAt;
    ClashKeys();
    ClashParts();
    OpenedTogether(CLASH, SLASH, UNDERSCORE);
  }
}
