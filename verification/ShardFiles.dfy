/** Which shard a record goes to, and the state files a partitioned run leaves. */
module ShardFiles {
  import opened Prelude
  import opened Mining

  // ----- shards -----

  function Named(text: string, default: string): string { if text == "" then default else text }

  /** Two records go to one shard exactly when they agree on cluster, source type and component, and on the node when the
      input is partitioned by node; a missing name counts as its default. */
  lemma SameShardExactly(a: Record, b: Record, byNode: bool)
    ensures KeyOf(a, byNode) == KeyOf(b, byNode) <==>
            && Named(a.cluster, "default") == Named(b.cluster, "default")
            && (byNode ==> Named(a.node, "unknown") == Named(b.node, "unknown"))
            && Named(a.sourceType, "unknown") == Named(b.sourceType, "unknown")
            && Named(a.component, "unknown") == Named(b.component, "unknown")
  {
    var x, y := KeyOf(a, byNode), KeyOf(b, byNode);
    var n := if byNode then 2 else 1;
    assert x[0] == Named(a.cluster, "default") && y[0] == Named(b.cluster, "default");
    assert byNode ==> x[1] == Named(a.node, "unknown") && y[1] == Named(b.node, "unknown");
    assert x[n] == Named(a.sourceType, "unknown") && y[n] == Named(b.sourceType, "unknown");
    assert x[n + 1] == Named(a.component, "unknown") && y[n + 1] == Named(b.component, "unknown");
  }

  // ----- the files in the middle of a run -----

  /** How far into the input a worker has taken its shard. */
  function Point(j: Job, s: State, key: Key): (n: nat)
    ensures n <= |j.records|
  {
    match WorkerOf(s, key)
    case Waiting => 0
    case Mining(_, events) => if |events| <= |Partition(j, key)| then Reached(j, key, |events|) else |j.records|
    case Collected => |j.records|
  }

  ghost predicate FileFits(j: Job, s: State, key: Key) { OnFile(s.files, key) == FileState(j, key, Point(j, s, key)) }

  ghost predicate RestStays(j: Job, files: Files) {
    forall f :: NoShards(j, f) ==> (f in files <==> f in j.files) && (f in files ==> files[f] == j.files[f])
  }

  /** Every shard's file is as its records so far left it, and no other file is touched. */
  ghost predicate FilesFit(j: Job, s: State) {
    (forall key :: key in Keys(j) ==> FileFits(j, s, key)) && RestStays(j, s.files)
  }

  lemma OthersFit(j: Job, s: State, r: State, key: Key)
    requires FilesFit(j, s) && OwnFiles(j) && key in Keys(j)
    requires key in r.workers && r.workers == s.workers[key := r.workers[key]] && OtherFilesStay(s.files, r.files, key)
    ensures (forall k :: k in Keys(j) && k != key ==> FileFits(j, r, k)) && RestStays(j, r.files)
  {
    hide FileState, Partition, Reached, KeyOf, FileOf, OtherFilesStay, OwnFiles, NoShards, OnFile;
    KeyIn(j, key);
    OwnFileOnly(j, s.files, r.files, key);
    forall k | k in Keys(j) && k != key ensures OnFile(r.files, k) == OnFile(s.files, k) && FileFits(j, s, k) {
      var i :| 0 <= i < |j.records| && KeyAt(j, i) == k;
    }
  }

  lemma OpenFits(j: Job, s: State, key: Key)
    requires Enabled(j, s, Open(key)) && FileFits(j, s, key)
    ensures FileFits(j, Step(j, s, Open(key)), key)
  {
    hide Load, Partition, IsKey, FileState, FileOf;
    FileFirst(j, key);
    assert FileState(j, key, 0) == OnFile(j.files, key) by { FileStarts(j, key); }
  }

  lemma FileStarts(j: Job, key: Key)
    ensures FileState(j, key, 0) == OnFile(j.files, key)
  {
  }

  lemma MineFits(j: Job, s: State, key: Key)
    requires Enabled(j, s, Mine(key)) && FileFits(j, s, key) && Fits(j, s, key)
    ensures FileFits(j, Step(j, s, Mine(key)), key) && OtherFilesStay(s.files, Step(j, s, Mine(key)).files, key)
  {
    hide Load, Partition, Reached, IsKey, FileState, FileOf, ShardState, Stored, KeyOf, EventAt, OtherFilesStay, OnFile;
    var w := s.workers[key];
    var n := |w.events|;
    ReachedHere(j, key, n);
    FileNext(j, key, n);
    var p := Partition(j, key)[n];
    StoredIs(s.files, key, j.miner.mine(w.state, j.records[p]));
  }

  lemma CollectFits(j: Job, s: State, key: Key)
    requires Enabled(j, s, Collect(key)) && FileFits(j, s, key)
    ensures FileFits(j, Step(j, s, Collect(key)), key)
  {
    hide Partition, IsKey, FileState, FileOf, OnFile;
    ReachedEnd(j, key);
  }

  lemma StepKeepsFiles(j: Job, s: State, a: Action)
    requires OwnFiles(j) && Inv(j, s) && FilesFit(j, s) && Enabled(j, s, a)
    ensures FilesFit(j, Step(j, s, a))
  {
    hide FileFits, RestStays, Fits, SlotsFit, OtherFilesStay, Stored, Partition, Keys, OwnFiles, Filled;
    KeyIn(j, a.key);
    assert Fits(j, s, a.key) && FileFits(j, s, a.key);
    match a
    case Open(key) =>
      OpenFits(j, s, key);
      FilesStay(s.files, key);
      OthersFit(j, s, Step(j, s, a), key);
    case Mine(key) =>
      MineFits(j, s, key);
      OthersFit(j, s, Step(j, s, a), key);
    case Collect(key) =>
      CollectFits(j, s, key);
      FilesStay(s.files, key);
      OthersFit(j, s, Step(j, s, a), key);
  }

  lemma {:induction false} RunKeepsFiles(j: Job, s: State, actions: seq<Action>)
    requires OwnFiles(j) && Inv(j, s) && FilesFit(j, s)
    ensures FilesFit(j, Run(j, s, actions)) && Inv(j, Run(j, s, actions))
    decreases |actions|
  {
    hide Inv, Enabled, Step, FilesFit, OwnFiles;
    if actions != [] {
      if Enabled(j, s, actions[0]) {
        StepKeepsInv(j, s, actions[0]);
        StepKeepsFiles(j, s, actions[0]);
      }
      RunKeepsFiles(j, if Enabled(j, s, actions[0]) then Step(j, s, actions[0]) else s, actions[1..]);
    }
  }

  lemma StartFits(j: Job)
    ensures FilesFit(j, Start(j))
  {
  }

  lemma AllFit(j: Job, s: State)
    requires FilesFit(j, s) && Done(s) == Keys(j)
    ensures FilesAfter(j, s.files, |j.records|)
  {
    hide FileState, FileOf, NoShards, OnFile, Partition, Reached, KeyOf;
    forall i | 0 <= i < |j.records| ensures OnFile(s.files, KeyAt(j, i)) == FileState(j, KeyAt(j, i), |j.records|) {
      assert KeyAt(j, i) in Keys(j) && FileFits(j, s, KeyAt(j, i)) && KeyAt(j, i) in Done(s);
    }
  }

  /** Whatever the interleaving: once every partition is collected the state files are, file by file, those the shared
      manager leaves; each shard's holds the state at its last record that saved, and no other file is touched. */
  lemma FilesAreSequential(j: Job, actions: seq<Action>)
    requires OwnFiles(j) && Done(Run(j, Start(j), actions)) == Keys(j)
    ensures var s := Run(j, Start(j), actions); s.files == SharedRun(j, |j.records|).files && FilesAfter(j, s.files, |j.records|)
  {
    hide *;
    StartInv(j);
    StartFits(j);
    RunKeepsFiles(j, Start(j), actions);
    AllFit(j, Run(j, Start(j), actions));
    SharedFilesAfter(j, |j.records|);
    FilesAreOne(j, Run(j, Start(j), actions).files, SharedRun(j, |j.records|).files, |j.records|);
  }
}
