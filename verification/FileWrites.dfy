/** What each write of the file-backed candidate store leaves in the files, field by field. */
module FileWrites {
  import opened Prelude
  import opened Ordering
  import opened Keyset
  import opened FileStore

  // ----- one candidate saved over another -----

  /** The field a save leaves: the id it is filed under, the stored value where review owns the field, otherwise what came. */
  function SavedField(previous: Option<Candidate>, incoming: Candidate, key: string, name: string): Option<Value> {
    if name == "candidate_id" then Some(Some(key))
    else if name in OWNED && previous.Some? && name in previous.value.fields then Some(previous.value.fields[name])
    else if name in incoming.fields then Some(incoming.fields[name])
    else None
  }

  function Present(fields: Fields, name: string): Option<Value> { if name in fields then Some(fields[name]) else None }

  /** A stored candidate saved again keeps its stamp exactly when it has one and no field changed. */
  ghost predicate SavedAs(previous: Option<Candidate>, incoming: Candidate, key: string, now: nat, after: Candidate) {
    && (forall name :: Present(after.fields, name) == SavedField(previous, incoming, key, name))
    && after.meta == incoming.meta
    && after.updatedAt == (if previous.Some? && previous.value.fields == after.fields && previous.value.updatedAt.Some?
                           then previous.value.updatedAt else Some(now))
  }

  lemma SaveOneIs(previous: Option<Candidate>, incoming: Candidate, key: string, now: nat)
    ensures SavedAs(previous, incoming, key, now, SaveOne(previous, incoming, key, now))
  {
    OwnedIsNotId();
    hide OWNED;
  }

  /** The name a candidate is filed under: its own id where it carries one. */
  function NameOf(incoming: (string, Candidate)): string {
    var fields := incoming.1.fields;
    if "candidate_id" in fields && fields["candidate_id"].Some? && fields["candidate_id"].value != ""
    then fields["candidate_id"].value else incoming.0
  }

  // ----- a snapshot save -----

  lemma {:induction false} SaveAllSplits(features: Features, a: Incoming, b: Incoming, now: nat)
    ensures SaveAll(features, a + b, now) == SaveAll(SaveAll(features, a, now), b, now)
    decreases |a|
  {
    hide SaveNext;
    if a == [] {
      assert a + b == b;
    } else {
      assert (a + b)[0] == a[0] && (a + b)[1..] == a[1..] + b;
      SaveAllSplits(SaveNext(features, a[0], now), a[1..], b, now);
    }
  }

  lemma {:induction false} OthersUnsaved(features: Features, incoming: Incoming, key: string, now: nat)
    requires forall x :: x in incoming ==> NameOf(x) != key
    ensures Find(SaveAll(features, incoming, now), key) == Find(features, key)
    decreases |incoming|
  {
    hide SaveOne;
    if incoming != [] {
      assert incoming[0] in incoming && NameOf(incoming[0]) == FileKey(incoming[0].0, incoming[0].1);
      assert forall x :: x in incoming[1..] ==> x in incoming;
      OthersUnsaved(SaveNext(features, incoming[0], now), incoming[1..], key, now);
    }
  }

  lemma FeaturesSaved(features: Features, before: Incoming, x: (string, Candidate), after: Incoming, now: nat)
    requires forall y :: y in after ==> NameOf(y) != NameOf(x)
    ensures var r := SaveAll(features, before + [x] + after, now); var was := SaveAll(features, before, now);
            && NameOf(x) in r && SavedAs(Find(was, NameOf(x)), x.1, NameOf(x), now, r[NameOf(x)])
            && ((forall y :: y in before ==> NameOf(y) != NameOf(x)) ==> Find(was, NameOf(x)) == Find(features, NameOf(x)))
  {
    hide SaveNext, SaveOne, SavedAs, NameOf;
    var key := NameOf(x);
    var was := SaveAll(features, before, now);
    SaveAllSplits(features, before + [x], after, now);
    SaveAllSplits(features, before, [x], now);
    OneSaved(was, x, now);
    OthersUnsaved(SaveAll(was, [x], now), after, key, now);
    if forall y :: y in before ==> NameOf(y) != key { OthersUnsaved(features, before, key, now); }
  }

  /** After a save of a job the candidate that came last under a name is there, merged over what was filed under it
      before; what no candidate came for stays, and so do the other jobs. */
  lemma SnapshotFiles(jobs: Jobs, job: string, before: Incoming, x: (string, Candidate), after: Incoming, now: nat)
    requires forall y :: y in after ==> NameOf(y) != NameOf(x)
    ensures var r := Save(jobs, job, before + [x] + after, now); var was := SaveAll(Stored(jobs, job), before, now);
            && job in r && NameOf(x) in r[job] && SavedAs(Find(was, NameOf(x)), x.1, NameOf(x), now, r[job][NameOf(x)])
            && ((forall y :: y in before ==> NameOf(y) != NameOf(x)) ==> Find(was, NameOf(x)) == Find(Stored(jobs, job), NameOf(x)))
            && (forall key :: (forall y :: y in before + [x] + after ==> NameOf(y) != key) ==> Find(r[job], key) == Find(Stored(jobs, job), key))
            && forall j :: j != job ==> (j in r <==> j in jobs) && (j in jobs ==> r[j] == jobs[j])
  {
    hide SaveAll, SavedAs, NameOf, Find;
    var stored, all := Stored(jobs, job), before + [x] + after;
    FeaturesSaved(stored, before, x, after, now);
    forall k | forall y :: y in all ==> NameOf(y) != k ensures Find(SaveAll(stored, all, now), k) == Find(stored, k) {
      OthersUnsaved(stored, all, k, now);
    }
  }

  lemma OneSaved(features: Features, x: (string, Candidate), now: nat)
    ensures var r := SaveAll(features, [x], now);
            NameOf(x) in r && SavedAs(Find(features, NameOf(x)), x.1, NameOf(x), now, r[NameOf(x)])
  {
    hide SaveOne, SavedAs;
    assert [x][1..] == [] && NameOf(x) == FileKey(x.0, x.1);
    assert SaveAll(features, [x], now) == SaveNext(features, x, now);
    SaveOneIs(Find(features, NameOf(x)), x.1, NameOf(x), now);
  }

  // ----- candidates under their own names -----

  /** Every stored candidate is filed under the id it carries. */
  ghost predicate OwnNames(jobs: Jobs) {
    forall j, k :: j in jobs && k in jobs[j] ==> Get(jobs[j][k].fields, "candidate_id") == Some(k)
  }

  ghost predicate FeaturesNamed(features: Features) { forall k :: k in features ==> Get(features[k].fields, "candidate_id") == Some(k) }

  lemma {:induction false} SaveAllNames(features: Features, incoming: Incoming, now: nat)
    requires FeaturesNamed(features)
    ensures FeaturesNamed(SaveAll(features, incoming, now))
    decreases |incoming|
  {
    hide Merge, FileKey;
    if incoming != [] { SaveAllNames(SaveNext(features, incoming[0], now), incoming[1..], now); }
  }

  lemma OneNamed(jobs: Jobs, job: string, key: string, c: Candidate)
    requires OwnNames(jobs) && Holds(jobs, job, key) && Get(c.fields, "candidate_id") == Some(key)
    ensures OwnNames(jobs[job := jobs[job][key := c]])
  {
  }

  lemma SavedNamed(jobs: Jobs, job: string, incoming: Incoming, now: nat)
    requires OwnNames(jobs)
    ensures OwnNames(Save(jobs, job, incoming, now))
  {
    hide SaveAll;
    SaveAllNames(Stored(jobs, job), incoming, now);
  }

  /** Every event, whatever it brings, leaves every candidate under its own id. */
  lemma StepKeepsNames(jobs: Jobs, e: Event)
    requires OwnNames(jobs)
    ensures OwnNames(Step(jobs, e))
  {
    hide Home, Homes, Save, OWNED, OwnNames;
    OwnedIsNotId();
    match e.action
    case Snapshot(j, incoming) => SavedNamed(jobs, j, incoming, e.now);
    case Generated(j, k, candidate) =>
      if k != "" && j in jobs { SavedNamed(jobs, j, Listed(GeneratedFeatures(jobs[j], k, candidate)), e.now); }
    case Reviewed(k, changes, expectedStatus, within, expected) =>
      HomeHolds(jobs, k, within);
      HomeIsJob(jobs, k, within);
      if Review(jobs, k, changes, expectedStatus, within, expected, e.now).Ok? {
        var j := Home(jobs, k, within).value;
        IsNamed(jobs, j, k);
        OneNamed(jobs, j, k, ReviewOne(jobs[j][k], k, changes, expectedStatus, expected, e.now).value);
      }
    case RolledBack(k, previous, version) =>
      HomeHolds(jobs, k, None);
      HomeIsJob(jobs, k, None);
      if Rollback(jobs, k, previous, version, e.now).Ok? {
        var j := Home(jobs, k, None).value;
        IsNamed(jobs, j, k);
        OneNamed(jobs, j, k, Restored(jobs[j][k], previous, e.now));
      }
  }

  lemma IsNamed(jobs: Jobs, job: string, key: string)
    requires OwnNames(jobs) && Holds(jobs, job, key)
    ensures Get(jobs[job][key].fields, "candidate_id") == Some(key)
  {
  }

  // ----- a generated candidate -----

  /** A generated candidate is refused without an id and without its job; otherwise it is merged over what was filed
      under its id, and every other candidate of the job stays as it was. */
  lemma GeneratedFiles(jobs: Jobs, job: string, key: string, candidate: Candidate, now: nat)
    requires OwnNames(jobs)
    ensures match SaveGenerated(jobs, job, key, candidate, now)
            case Err(e) => (key == "" && e == InvalidUpdate) || (key != "" && job !in jobs && e == NotFound)
            case Ok(r) =>
              && key != "" && job in jobs && job in r
              && key in r[job] && SavedAs(Find(jobs[job], key), candidate, key, now, r[job][key])
              && (forall k :: k in r[job] <==> k in jobs[job] || k == key)
              && (forall k :: k in jobs[job] && k != key ==>
                   r[job][k].fields == jobs[job][k].fields && r[job][k].meta == jobs[job][k].meta
                   && (jobs[job][k].updatedAt.Some? ==> r[job][k] == jobs[job][k]))
              && forall j :: j != job ==> (j in r <==> j in jobs) && (j in jobs ==> r[j] == jobs[j])
  {
    hide SaveAll, Listed, GeneratedFeatures, SavedAs;
    if key != "" && job in jobs {
      var listed := GeneratedFeatures(jobs[job], key, candidate);
      ListedFiles(jobs[job], key, candidate, now);
    }
  }

  lemma ListedFiles(features: Features, key: string, candidate: Candidate, now: nat)
    requires FeaturesNamed(features) && key != ""
    ensures var r := SaveAll(features, Listed(GeneratedFeatures(features, key, candidate)), now);
            && key in r && SavedAs(Find(features, key), candidate, key, now, r[key])
            && (forall k :: k in r <==> k in features || k == key)
            && forall k :: k in features && k != key ==>
                 r[k].fields == features[k].fields && r[k].meta == features[k].meta && (features[k].updatedAt.Some? ==> r[k] == features[k])
  {
    hide SavedAs, GeneratedFeatures, SaveAll, Listed;
    var listed := GeneratedFeatures(features, key, candidate);
    GeneratedNamed(features, key, candidate);
    ListedSaved(features, listed, now);
    var r := SaveAll(features, Listed(listed), now);
    GeneratedIs(features, key, candidate, now, r[key]);
    forall k | k in features && k != key
      ensures r[k].fields == features[k].fields && r[k].meta == features[k].meta && (features[k].updatedAt.Some? ==> r[k] == features[k])
    {
      SavedAgain(features[k], k, now, r[k]);
    }
  }

  lemma GeneratedNamed(features: Features, key: string, candidate: Candidate)
    requires FeaturesNamed(features)
    ensures var listed := GeneratedFeatures(features, key, candidate);
            FeaturesNamed(listed) && listed.Keys == features.Keys + {key} && forall k :: k in features && k != key ==> listed[k] == features[k]
  {
    hide Merge;
  }

  /** Every listed candidate is saved over its own. */
  lemma ListedSaved(features: Features, listed: Features, now: nat)
    requires FeaturesNamed(listed) && features.Keys <= listed.Keys
    ensures var r := SaveAll(features, Listed(listed), now);
            r.Keys == listed.Keys && forall k :: k in listed ==> SavedAs(Find(features, k), listed[k], k, now, r[k])
  {
    hide SavedAs, SaveAll, Find, NameOf, Increasing, FeaturesNamed;
    var keys, pairs := SortedTexts(listed.Keys), Listed(listed);
    var r := SaveAll(features, pairs, now);
    PairsNamed(listed, keys);
    forall k | k in listed ensures k in r && SavedAs(Find(features, k), listed[k], k, now, r[k]) {
      var i :| 0 <= i < |keys| && keys[i] == k;
      Apart(keys, i);
      OneListed(features, pairs, i, now);
    }
    forall k | k !in listed ensures k !in r {
      OthersUnsaved(features, pairs, k, now);
      NotThere(r, features, k);
    }
  }

  lemma OneListed(features: Features, pairs: Incoming, i: nat, now: nat)
    requires i < |pairs| && forall j :: 0 <= j < |pairs| && j != i ==> NameOf(pairs[j]) != NameOf(pairs[i])
    ensures var r := SaveAll(features, pairs, now); var key := NameOf(pairs[i]);
            key in r && SavedAs(Find(features, key), pairs[i].1, key, now, r[key])
  {
    hide SavedAs, SaveAll, Find, NameOf;
    assert pairs == pairs[..i] + [pairs[i]] + pairs[i + 1..];
    FeaturesSaved(features, pairs[..i], pairs[i], pairs[i + 1..], now);
  }

  lemma NotThere(r: Features, features: Features, k: string)
    requires Find(r, k) == Find(features, k) && k !in features
    ensures k !in r
  {
  }

  lemma PairsNamed(listed: Features, keys: seq<string>)
    requires FeaturesNamed(listed) && forall k :: k in keys ==> k in listed
    ensures forall i :: 0 <= i < |keys| ==> NameOf(PairsOf(listed, keys)[i]) == keys[i]
  {
  }

  lemma Apart(keys: seq<string>, i: nat)
    requires Increasing(keys, TextLess) && i < |keys|
    ensures forall j :: 0 <= j < |keys| && j != i ==> keys[j] != keys[i]
  {
    TextOrder();
  }

  lemma GeneratedIs(features: Features, key: string, candidate: Candidate, now: nat, after: Candidate)
    requires SavedAs(Find(features, key), GeneratedFeatures(features, key, candidate)[key], key, now, after)
    ensures SavedAs(Find(features, key), candidate, key, now, after)
  {
    hide OWNED;
    OwnedIsNotId();
  }

  /** What is saved over itself stays. */
  lemma SavedAgain(c: Candidate, key: string, now: nat, after: Candidate)
    requires Get(c.fields, "candidate_id") == Some(key) && SavedAs(Some(c), c, key, now, after)
    ensures after.fields == c.fields && after.meta == c.meta && (c.updatedAt.Some? ==> after == c)
  {
    hide OWNED;
    forall name ensures Present(after.fields, name) == Present(c.fields, name) {}
    assert after.fields == c.fields by { SamePresent(after.fields, c.fields); }
  }

  lemma SamePresent(a: Fields, b: Fields)
    requires forall name :: Present(a, name) == Present(b, name)
    ensures a == b
  {
    forall name ensures name in a <==> name in b { assert Present(a, name) == Present(b, name); }
    forall name | name in a ensures a[name] == b[name] { assert Present(a, name) == Present(b, name); }
  }

  // ----- a review -----

  /** The first job in directory order that has the candidate, among those the caller allows. */
  lemma HomeIsFirst(jobs: Jobs, key: string, within: Option<string>, job: string)
    ensures Home(jobs, key, within) == Some(job) <==>
            && Holds(jobs, job, key) && (within.Some? ==> job == within.value)
            && forall j :: Holds(jobs, j, key) && (within.Some? ==> j == within.value) && j != job ==> TextLess(job, j)
    ensures Home(jobs, key, within) == None <==> forall j :: Holds(jobs, j, key) ==> within.Some? && j != within.value
  {
    TextOrder();
    hide TextLess;
    var homes := Homes(jobs, key, within);
    forall j ensures j in homes <==> Holds(jobs, j, key) && (within.Some? ==> j == within.value) {}
    if Holds(jobs, job, key) && (within.Some? ==> job == within.value)
      && forall j :: Holds(jobs, j, key) && (within.Some? ==> j == within.value) && j != job ==> TextLess(job, j)
    {
      LeastIs(job, homes, TextLess);
    }
  }

  /** The changes name fields review owns and, if any, one of the three statuses. */
  predicate Reviewable(changes: Fields) {
    && (forall name :: name in changes ==> name in OWNED)
    && ("status" in changes ==> changes["status"] == Some("pending") || changes["status"] == Some("approved") || changes["status"] == Some("rejected"))
  }

  predicate HasStatus(c: Candidate, status: string) { "status" in c.fields && c.fields["status"] == Some(status) }

  predicate Asks(changes: Fields, status: string) { "status" in changes && changes["status"] == Some(status) }

  /** A decided candidate is not decided otherwise. */
  predicate Overrules(c: Candidate, changes: Fields) {
    || (HasStatus(c, "approved") && "status" in changes && changes["status"].Some? && !Asks(changes, "approved"))
    || (HasStatus(c, "rejected") && "status" in changes && changes["status"].Some? && !Asks(changes, "rejected"))
  }

  predicate AcceptsReview(c: Candidate, changes: Fields, expectedStatus: string, expected: Option<nat>) {
    && !Overrules(c, changes) && (expected.Some? ==> c.updatedAt == expected)
    && (HasStatus(c, expectedStatus) || (HasStatus(c, "approved") && Asks(changes, "approved")))
  }

  /** The candidate after an accepted review. */
  ghost predicate ReviewedAs(c: Candidate, key: string, changes: Fields, expectedStatus: string, now: nat, after: Candidate) {
    if !HasStatus(c, expectedStatus) || (forall name :: name in changes ==> Get(c.fields, name) == changes[name]) then after == c
    else
      && (forall name :: Present(after.fields, name) ==
            if name == "candidate_id" then Some(Some(key)) else if name in changes then Some(changes[name]) else Present(c.fields, name))
      && after.meta == c.meta
      && after.updatedAt == if after.fields == c.fields && c.updatedAt.Some? then c.updatedAt else Some(now)
  }

  lemma ReviewOneIs(c: Candidate, key: string, changes: Fields, expectedStatus: string, expected: Option<nat>, now: nat)
    requires Reviewable(changes)
    ensures var r := ReviewOne(c, key, changes, expectedStatus, expected, now);
            && (r.Ok? <==> AcceptsReview(c, changes, expectedStatus, expected)) && (r.Err? ==> r.error == StateConflict)
            && (r.Ok? ==> ReviewedAs(c, key, changes, expectedStatus, now, r.value))
  {
    OwnedIsNotId();
    hide OWNED;
  }

  /** A review is refused for its changes, for want of the candidate or for the candidate's state, each exactly when; an
      accepted one writes the candidate of the first job that has it, and nothing else. */
  lemma ReviewFiles(jobs: Jobs, key: string, changes: Fields, expectedStatus: string, within: Option<string>, expected: Option<nat>, now: nat)
    ensures var r := Review(jobs, key, changes, expectedStatus, within, expected, now); var home := Home(jobs, key, within);
            && (r == Err(InvalidUpdate) <==> !Reviewable(changes))
            && (r == Err(NotFound) <==> Reviewable(changes) && home.None?)
            && (home.Some? ==> Holds(jobs, home.value, key) && var c := jobs[home.value][key];
                 && (r == Err(StateConflict) <==> Reviewable(changes) && !AcceptsReview(c, changes, expectedStatus, expected))
                 && (r.Ok? ==> exists after :: ReviewedAs(c, key, changes, expectedStatus, now, after)
                                            && r.value == jobs[home.value := jobs[home.value][key := after]]))
  {
    HomeHolds(jobs, key, within);
    HomeIsJob(jobs, key, within);
    hide Home, Homes, ReviewOne, ReviewedAs, AcceptsReview;
    assert ValidChanges(changes) <==> Reviewable(changes);
    if Reviewable(changes) && Home(jobs, key, within).Some? {
      ReviewOneIs(jobs[Home(jobs, key, within).value][key], key, changes, expectedStatus, expected, now);
    }
  }

  // ----- a rollback -----

  /** A rollback is accepted exactly for an approved candidate at the very version it names; then every field review owns
      is as given, absent where it is not given, and every other field stays. */
  lemma RollbackFiles(jobs: Jobs, key: string, previous: Fields, expected: nat, now: nat)
    ensures var r := Rollback(jobs, key, previous, expected, now); var home := Home(jobs, key, None);
            && (r == Err(NotFound) <==> home.None?)
            && (home.Some? ==> Holds(jobs, home.value, key) && var c := jobs[home.value][key];
                 && (r.Ok? <==> HasStatus(c, "approved") && c.updatedAt == Some(expected))
                 && (r.Err? ==> r.error == StateConflict)
                 && (r.Ok? ==> exists after :: RestoredAs(c, previous, now, after) && r.value == jobs[home.value := jobs[home.value][key := after]]))
  {
    HomeHolds(jobs, key, None);
    HomeIsJob(jobs, key, None);
    hide Home, Homes, RestoredAs, OWNED;
    if Home(jobs, key, None).Some? {
      var c := jobs[Home(jobs, key, None).value][key];
      assert RestoredAs(c, previous, now, Restored(c, previous, now)) by { RestoredIs(c, previous, now); }
    }
  }

  ghost predicate RestoredAs(c: Candidate, previous: Fields, now: nat, after: Candidate) {
    && (forall name :: Present(after.fields, name) == if name in OWNED then Present(previous, name) else Present(c.fields, name))
    && after.meta == c.meta && after.updatedAt == Some(now)
  }

  lemma RestoredIs(c: Candidate, previous: Fields, now: nat)
    ensures RestoredAs(c, previous, now, Restored(c, previous, now))
  {
    hide OWNED;
  }
}
