/**
 The file-backed candidate store of feature_jobs.py: snapshot saves, generated saves, compare-and-set reviews and
 exact-version rollbacks over one clock.
 */
module FileStore {
  import opened Prelude
  import opened Ordering
  import opened Keyset

  /** A JSON value by its text, none for null. */
  type Value = Option<string>

  type Fields = map<string, Value>

  /** `fields` decide the version; `meta` are job_id, job_created_at, job_status, entity_id and created_at. */
  datatype Candidate = Candidate(fields: Fields, meta: Fields, updatedAt: Option<nat>)

  type Features = map<string, Candidate>

  type Jobs = map<string, Features>

  datatype Refusal = NotFound | StateConflict | InvalidUpdate

  const OWNED: set<string> := {"status", "reviewer_note", "approved_at", "resolved_rule_id", "rule_id", "resolution_type",
                               "review_scope", "title", "summary", "importance", "tags"}

  function Get(fields: Fields, name: string): Value { if name in fields then fields[name] else None }

  function Status(c: Candidate): Value { Get(c.fields, "status") }

  predicate Decided(c: Candidate) { Status(c) == Some("approved") || Status(c) == Some("rejected") }

  // ----- saving -----

  /** `_merge_review_owned_fields`. */
  function Merge(current: Fields, incoming: Fields): Fields {
    map name | name in incoming.Keys + (current.Keys * OWNED) ::
      if name in OWNED && name in current then current[name] else incoming[name]
  }

  function SaveOne(previous: Option<Candidate>, incoming: Candidate, key: string, now: nat): Candidate {
    var fields := (if previous.Some? then Merge(previous.value.fields, incoming.fields) else incoming.fields)["candidate_id" := Some(key)];
    var keeps := previous.Some? && previous.value.fields == fields && previous.value.updatedAt.Some?;
    Candidate(fields, incoming.meta, if keeps then previous.value.updatedAt else Some(now))
  }

  function Stored(jobs: Jobs, job: string): Features { if job in jobs then jobs[job] else map[] }

  function Find(features: Features, key: string): Option<Candidate> { if key in features then Some(features[key]) else None }

  /** A candidate is filed under its own id; one without an id, under the id it came with. */
  function FileKey(id: string, c: Candidate): string {
    var own := Get(c.fields, "candidate_id");
    if own.Some? && own.value != "" then own.value else id
  }

  /** The candidates of a job in the order of its dictionary. */
  type Incoming = seq<(string, Candidate)>

  function SaveNext(features: Features, incoming: (string, Candidate), now: nat): Features {
    var key := FileKey(incoming.0, incoming.1);
    features[key := SaveOne(Find(features, key), incoming.1, key, now)]
  }

  /** `_save_locked`: what is stored stays, what comes is merged over it, one after the other. */
  function SaveAll(features: Features, incoming: Incoming, now: nat): Features
    decreases |incoming|
  {
    if incoming == [] then features else SaveAll(SaveNext(features, incoming[0], now), incoming[1..], now)
  }

  function Save(jobs: Jobs, job: string, incoming: Incoming, now: nat): Jobs {
    jobs[job := SaveAll(Stored(jobs, job), incoming, now)]
  }

  function GeneratedFeatures(features: Features, key: string, candidate: Candidate): Features {
    var fields := if key in features then Merge(features[key].fields, candidate.fields) else candidate.fields;
    features[key := candidate.(fields := fields["candidate_id" := Some(key)])]
  }

  function PairsOf(features: Features, keys: seq<string>): (pairs: Incoming)
    requires forall k :: k in keys ==> k in features
    ensures |pairs| == |keys| && forall i :: 0 <= i < |keys| ==> pairs[i] == (keys[i], features[keys[i]])
  {
    if keys == [] then [] else [(keys[0], features[keys[0]])] + PairsOf(features, keys[1..])
  }

  /** The job's own candidates, listed by id. */
  ghost function Listed(features: Features): Incoming { PairsOf(features, SortedTexts(features.Keys)) }

  ghost function SaveGenerated(jobs: Jobs, job: string, key: string, candidate: Candidate, now: nat): Result<Jobs, Refusal> {
    if key == "" then Err(InvalidUpdate)
    else if job !in jobs then Err(NotFound)
    else Ok(Save(jobs, job, Listed(GeneratedFeatures(jobs[job], key, candidate)), now))
  }

  // ----- looking up -----

  /** The jobs a lookup may take the candidate from; without a job id the first in directory order. */
  function Homes(jobs: Jobs, key: string, job: Option<string>): set<string> {
    set j | j in jobs && key in jobs[j] && (job.None? || job.value == j)
  }

  ghost function Home(jobs: Jobs, key: string, job: Option<string>): Option<string> {
    MinText(Homes(jobs, key, job))
  }

  lemma HomeHolds(jobs: Jobs, key: string, job: Option<string>)
    ensures Home(jobs, key, job).Some? ==> Home(jobs, key, job).value in Homes(jobs, key, job)
  {
    TextOrder();
  }

  lemma InHomes(jobs: Jobs, key: string, within: Option<string>, job: string)
    ensures job in Homes(jobs, key, within) <==> job in jobs && key in jobs[job] && (within.None? || within.value == job)
  {
  }

  /** The first of the sorted jobs that has the candidate. */
  lemma FirstIsHome(jobs: Jobs, key: string, within: Option<string>, sorted: seq<string>, i: nat)
    requires Increasing(sorted, TextLess) && (forall j :: j in jobs ==> j in sorted) && i < |sorted| && sorted[i] in Homes(jobs, key, within)
    requires forall j :: 0 <= j < i ==> sorted[j] !in Homes(jobs, key, within)
    ensures Home(jobs, key, within) == Some(sorted[i])
  {
    TextOrder();
    hide TextLess;
    forall j | j in Homes(jobs, key, within) && j != sorted[i] ensures TextLess(sorted[i], j) {
      var k :| 0 <= k < |sorted| && sorted[k] == j;
      assert k > i;
    }
    LeastIs(sorted[i], Homes(jobs, key, within), TextLess);
  }

  lemma NoHome(jobs: Jobs, key: string, within: Option<string>, sorted: seq<string>)
    requires (forall j :: j in jobs ==> j in sorted) && forall i :: 0 <= i < |sorted| ==> sorted[i] !in Homes(jobs, key, within)
    ensures Home(jobs, key, within) == None
  {
    assert Homes(jobs, key, within) == {};
  }

  // ----- reviewing -----

  predicate ValidChanges(changes: Fields) {
    changes.Keys <= OWNED && ("status" in changes ==> changes["status"] in {Some("pending"), Some("approved"), Some("rejected")})
  }

  function Changed(c: Candidate, changes: Fields, key: string, now: nat): Candidate {
    var fields := (c.fields + changes)["candidate_id" := Some(key)];
    c.(fields := fields, updatedAt := if fields == c.fields && c.updatedAt.Some? then c.updatedAt else Some(now))
  }

  /** What a review makes of the candidate it found; an equal decision or a change that changes nothing writes nothing. */
  function ReviewOne(c: Candidate, key: string, changes: Fields, expectedStatus: string, expected: Option<nat>, now: nat): Result<Candidate, Refusal> {
    var requested := Get(changes, "status");
    if Decided(c) && requested.Some? && requested != Status(c) then Err(StateConflict)
    else if expected.Some? && c.updatedAt != expected then Err(StateConflict)
    else if Status(c) != Some(expectedStatus) then
      if Status(c) == Some("approved") && requested == Some("approved") then Ok(c) else Err(StateConflict)
    else if forall name :: name in changes ==> Get(c.fields, name) == changes[name] then Ok(c)
    else Ok(Changed(c, changes, key, now))
  }

  ghost function Review(jobs: Jobs, key: string, changes: Fields, expectedStatus: string, job: Option<string>, expected: Option<nat>,
                        now: nat): Result<Jobs, Refusal> {
    if !ValidChanges(changes) then Err(InvalidUpdate)
    else match Home(jobs, key, job)
      case None => Err(NotFound)
      case Some(j) =>
        HomeHolds(jobs, key, job);
        match ReviewOne(jobs[j][key], key, changes, expectedStatus, expected, now)
        case Err(e) => Err(e)
        case Ok(c) => Ok(jobs[j := jobs[j][key := c]])
  }

  /** The review-owned fields of `previous`, over everything else. */
  function Restored(c: Candidate, previous: Fields, now: nat): Candidate {
    c.(fields := map name | name in (c.fields.Keys - OWNED) + (previous.Keys * OWNED) ::
                   if name in OWNED then previous[name] else c.fields[name],
       updatedAt := Some(now))
  }

  ghost function Rollback(jobs: Jobs, key: string, previous: Fields, expected: nat, now: nat): Result<Jobs, Refusal> {
    match Home(jobs, key, None)
    case None => Err(NotFound)
    case Some(j) =>
      HomeHolds(jobs, key, None);
      var c := jobs[j][key];
      if Status(c) != Some("approved") || c.updatedAt != Some(expected) then Err(StateConflict)
      else Ok(jobs[j := jobs[j][key := Restored(c, previous, now)]])
  }

  // ----- runs -----

  datatype Action =
    | Snapshot(job: string, incoming: Incoming)
    | Generated(job: string, key: string, candidate: Candidate)
    | Reviewed(key: string, changes: Fields, expectedStatus: string, within: Option<string>, expected: Option<nat>)
    | RolledBack(key: string, previous: Fields, version: nat)

  datatype Event = Event(action: Action, now: nat)

  ghost function Attempt(jobs: Jobs, e: Event): Result<Jobs, Refusal> {
    match e.action
    case Snapshot(job, incoming) => Ok(Save(jobs, job, incoming, e.now))
    case Generated(job, key, candidate) => SaveGenerated(jobs, job, key, candidate, e.now)
    case Reviewed(key, changes, expectedStatus, job, expected) => Review(jobs, key, changes, expectedStatus, job, expected, e.now)
    case RolledBack(key, previous, version) => Rollback(jobs, key, previous, version, e.now)
  }

  ghost function Step(jobs: Jobs, e: Event): Jobs { match Attempt(jobs, e) case Ok(after) => after case Err(_) => jobs }

  ghost function Run(jobs: Jobs, events: seq<Event>): Jobs
    decreases |events|
  {
    if events == [] then jobs else Run(Step(jobs, events[0]), events[1..])
  }

  predicate Timed(events: seq<Event>, clock: nat)
    decreases |events|
  {
    events == [] || (clock < events[0].now && Timed(events[1..], events[0].now))
  }

  function EndTime(events: seq<Event>, clock: nat): nat
    decreases |events|
  {
    if events == [] then clock else EndTime(events[1..], events[0].now)
  }

  predicate Holds(jobs: Jobs, job: string, key: string) { job in jobs && key in jobs[job] }

  /** Every stamp lies in the past, and none is missing. */
  predicate Stamped(jobs: Jobs, clock: nat) {
    forall j, k :: j in jobs && k in jobs[j] ==> jobs[j][k].updatedAt.Some? && jobs[j][k].updatedAt.value <= clock
  }

  // ----- one event and one candidate -----

  /** What an event may do to a candidate: nothing, keep its stamp with its fields, or stamp it now. */
  ghost predicate Moves(before: Candidate, after: Candidate, now: nat) {
    (after.updatedAt == before.updatedAt && after.fields == before.fields) || after.updatedAt == Some(now)
  }

  ghost predicate KeepsOwned(before: Candidate, after: Candidate) {
    forall name :: name in OWNED && name in before.fields ==> name in after.fields && after.fields[name] == before.fields[name]
  }

  /** What was there moves, and what is new is stamped now. */
  ghost predicate FeaturesMove(before: Features, after: Features, now: nat) {
    && (forall k :: k in before ==> k in after && Moves(before[k], after[k], now))
    && (forall k :: k in after && k !in before ==> after[k].updatedAt == Some(now))
  }

  ghost predicate FeaturesKeepOwned(before: Features, after: Features) {
    forall k :: k in before ==> k in after && KeepsOwned(before[k], after[k])
  }

  lemma SaveNextMoves(features: Features, incoming: (string, Candidate), now: nat)
    ensures FeaturesMove(features, SaveNext(features, incoming, now), now) && FeaturesKeepOwned(features, SaveNext(features, incoming, now))
  {
    OwnedIsNotId();
  }

  lemma {:induction false} SaveAllMoves(features: Features, incoming: Incoming, now: nat)
    ensures FeaturesMove(features, SaveAll(features, incoming, now), now) && FeaturesKeepOwned(features, SaveAll(features, incoming, now))
    decreases |incoming|
  {
    hide SaveNext;
    if incoming != [] {
      SaveNextMoves(features, incoming[0], now);
      SaveAllMoves(SaveNext(features, incoming[0], now), incoming[1..], now);
    }
  }

  /** Every event writes one job at most. */
  ghost predicate JobsMove(before: Jobs, after: Jobs, now: nat) {
    exists job :: JobMoves(before, after, job, now)
  }

  ghost predicate JobMoves(before: Jobs, after: Jobs, job: string, now: nat) {
    && (forall j :: j in before ==> j in after)
    && (forall j :: j in after && j != job ==> j in before && after[j] == before[j])
    && (job in after ==> FeaturesMove(Stored(before, job), after[job], now))
  }

  lemma SaveMoves(jobs: Jobs, job: string, incoming: Incoming, now: nat)
    ensures JobMoves(jobs, Save(jobs, job, incoming, now), job, now)
    ensures FeaturesKeepOwned(Stored(jobs, job), Save(jobs, job, incoming, now)[job])
  {
    hide SaveAll;
    SaveAllMoves(Stored(jobs, job), incoming, now);
  }

  lemma OneMoves(jobs: Jobs, job: string, key: string, c: Candidate, now: nat)
    requires Holds(jobs, job, key) && Moves(jobs[job][key], c, now)
    ensures JobMoves(jobs, jobs[job := jobs[job][key := c]], job, now)
  {
  }

  lemma StepMovesJob(jobs: Jobs, e: Event)
    ensures JobsMove(jobs, Step(jobs, e), e.now)
  {
    hide Home, Homes, Save, JobMoves;
    assert JobMoves(jobs, jobs, "", e.now) by { NothingMoves(jobs, e.now); }
    match e.action
    case Snapshot(j, incoming) => SaveMoves(jobs, j, incoming, e.now);
    case Generated(j, k, candidate) =>
      if k != "" && j in jobs { SaveMoves(jobs, j, Listed(GeneratedFeatures(jobs[j], k, candidate)), e.now); }
    case Reviewed(k, changes, expectedStatus, within, expected) =>
      HomeHolds(jobs, k, within);
      HomeIsJob(jobs, k, within);
      if Review(jobs, k, changes, expectedStatus, within, expected, e.now).Ok? {
        var j := Home(jobs, k, within).value;
        OneMoves(jobs, j, k, ReviewOne(jobs[j][k], k, changes, expectedStatus, expected, e.now).value, e.now);
      }
    case RolledBack(k, previous, version) =>
      HomeHolds(jobs, k, None);
      HomeIsJob(jobs, k, None);
      if Rollback(jobs, k, previous, version, e.now).Ok? {
        var j := Home(jobs, k, None).value;
        OneMoves(jobs, j, k, Restored(jobs[j][k], previous, e.now), e.now);
      }
  }

  lemma NothingMoves(jobs: Jobs, now: nat)
    ensures JobMoves(jobs, jobs, "", now)
  {
  }

  /** A generated or snapshot save never alters a review-owned field that is there. */
  lemma SavesKeepOwned(jobs: Jobs, e: Event, job: string, key: string, name: string)
    requires (e.action.Snapshot? || e.action.Generated?) && Holds(jobs, job, key) && name in OWNED && name in jobs[job][key].fields
    ensures Holds(Step(jobs, e), job, key)
    ensures name in Step(jobs, e)[job][key].fields && Step(jobs, e)[job][key].fields[name] == jobs[job][key].fields[name]
  {
    hide SaveAll, Listed, GeneratedFeatures, JobMoves, OWNED;
    match e.action
    case Snapshot(j, incoming) => SaveMoves(jobs, j, incoming, e.now);
    case Generated(j, k, candidate) =>
      if k != "" && j in jobs { SaveMoves(jobs, j, Listed(GeneratedFeatures(jobs[j], k, candidate)), e.now); }
    case _ =>
  }

  lemma OwnedIsNotId()
    ensures "candidate_id" !in OWNED && "status" in OWNED
  {
  }

  /** The exception to a decision being final. */
  ghost predicate RollsBack(jobs: Jobs, a: Action, job: string, key: string) {
    a.RolledBack? && a.key == key && Holds(jobs, job, key) && Home(jobs, key, None) == Some(job)
    && Status(jobs[job][key]) == Some("approved") && jobs[job][key].updatedAt == Some(a.version)
  }

  lemma StepMoves(jobs: Jobs, e: Event, job: string, key: string)
    requires Holds(jobs, job, key)
    ensures Holds(Step(jobs, e), job, key) && Moves(jobs[job][key], Step(jobs, e)[job][key], e.now)
  {
    hide Step;
    StepMovesJob(jobs, e);
  }

  /** A candidate that does not carry the stamp of this event was there before, as it is. */
  lemma StepOld(jobs: Jobs, e: Event, job: string, key: string)
    requires Holds(Step(jobs, e), job, key) && Step(jobs, e)[job][key].updatedAt != Some(e.now)
    ensures Holds(jobs, job, key)
    ensures jobs[job][key].updatedAt == Step(jobs, e)[job][key].updatedAt && jobs[job][key].fields == Step(jobs, e)[job][key].fields
  {
    hide Step;
    StepMovesJob(jobs, e);
  }

  lemma HomeIsJob(jobs: Jobs, key: string, job: Option<string>)
    ensures forall j :: j in Homes(jobs, key, job) ==> Holds(jobs, j, key) && (job.Some? ==> j == job.value)
    ensures job.Some? && Holds(jobs, job.value, key) ==> Home(jobs, key, job) == job
  {
    TextOrder();
    if job.Some? && Holds(jobs, job.value, key) { assert Homes(jobs, key, job) == {job.value}; }
  }

  lemma StepStamped(jobs: Jobs, e: Event, clock: nat)
    requires Stamped(jobs, clock) && clock <= e.now
    ensures Stamped(Step(jobs, e), e.now)
  {
    hide Step;
    StepMovesJob(jobs, e);
  }

  /** No two jobs hold candidates of one stamp. */
  ghost predicate StampsApart(jobs: Jobs) {
    forall i, j, k, l :: i in jobs && j in jobs && i != j && k in jobs[i] && l in jobs[j] ==> jobs[i][k].updatedAt != jobs[j][l].updatedAt
  }

  /** An event writes into one job, so stamps of different jobs stay apart. */
  lemma StepKeepsApart(jobs: Jobs, e: Event, clock: nat)
    requires Stamped(jobs, clock) && clock < e.now && StampsApart(jobs)
    ensures StampsApart(Step(jobs, e))
  {
    hide Step;
    StepMovesJob(jobs, e);
  }

  /** A decision stands unless this very version is rolled back. */
  lemma StepKeepsDecision(jobs: Jobs, e: Event, job: string, key: string)
    requires Holds(jobs, job, key) && Decided(jobs[job][key]) && !RollsBack(jobs, e.action, job, key)
    ensures Holds(Step(jobs, e), job, key) && Status(Step(jobs, e)[job][key]) == Status(jobs[job][key])
  {
    hide Merge, Home, Homes;
    OwnedIsNotId();
    match e.action
    case Snapshot(j, incoming) => SavesKeepOwned(jobs, e, job, key, "status");
    case Generated(j, k, candidate) => SavesKeepOwned(jobs, e, job, key, "status");
    case Reviewed(k, changes, expectedStatus, within, expected) => HomeHolds(jobs, k, within); HomeIsJob(jobs, k, within);
    case RolledBack(k, previous, version) => HomeHolds(jobs, k, None); HomeIsJob(jobs, k, None);
  }

  // ----- whole runs -----

  ghost predicate NeverRolledBack(jobs: Jobs, events: seq<Event>, job: string, key: string)
    decreases |events|
  {
    events != [] ==>
      !RollsBack(jobs, events[0].action, job, key) && NeverRolledBack(Step(jobs, events[0]), events[1..], job, key)
  }

  /** Over any run an approved or rejected candidate keeps its status, unless its exact version was rolled back. */
  lemma {:induction false} DecisionsStand(jobs: Jobs, events: seq<Event>, job: string, key: string)
    requires Holds(jobs, job, key) && Decided(jobs[job][key]) && NeverRolledBack(jobs, events, job, key)
    ensures Holds(Run(jobs, events), job, key) && Status(Run(jobs, events)[job][key]) == Status(jobs[job][key])
    decreases |events|
  {
    hide Step, RollsBack;
    if events != [] {
      StepKeepsDecision(jobs, events[0], job, key);
      DecisionsStand(Step(jobs, events[0]), events[1..], job, key);
    }
  }

  /** A rejection stands whatever happens: only approvals can be rolled back. */
  lemma {:induction false} RejectionsStand(jobs: Jobs, events: seq<Event>, job: string, key: string)
    requires Holds(jobs, job, key) && Status(jobs[job][key]) == Some("rejected")
    ensures Holds(Run(jobs, events), job, key) && Status(Run(jobs, events)[job][key]) == Some("rejected")
    decreases |events|
  {
    hide Step;
    if events != [] {
      StepKeepsDecision(jobs, events[0], job, key);
      RejectionsStand(Step(jobs, events[0]), events[1..], job, key);
    }
  }

  /** A stamp names one state of the candidate: it is as it was, or it carries a later stamp. */
  lemma {:induction false} StampNamesVersion(jobs: Jobs, events: seq<Event>, clock: nat, job: string, key: string)
    requires Holds(jobs, job, key) && Stamped(jobs, clock) && Timed(events, clock)
    ensures Holds(Run(jobs, events), job, key) && Stamped(Run(jobs, events), EndTime(events, clock))
    ensures var before, after := jobs[job][key], Run(jobs, events)[job][key];
            (after.updatedAt == before.updatedAt && after.fields == before.fields) || after.updatedAt.value > clock
    decreases |events|
  {
    hide Step;
    if events != [] {
      StepMoves(jobs, events[0], job, key);
      StepStamped(jobs, events[0], clock);
      StampNamesVersion(Step(jobs, events[0]), events[1..], events[0].now, job, key);
    }
  }

  /** From an empty store on, stamps lie in the past and those of different jobs are apart. */
  lemma {:induction false} RunKeepsApart(jobs: Jobs, events: seq<Event>, clock: nat)
    requires Stamped(jobs, clock) && StampsApart(jobs) && Timed(events, clock)
    ensures Stamped(Run(jobs, events), EndTime(events, clock)) && StampsApart(Run(jobs, events))
    decreases |events|
  {
    hide Step, StampsApart, Stamped;
    if events != [] {
      StepStamped(jobs, events[0], clock) by { Earlier(jobs, clock, events[0].now); }
      StepKeepsApart(jobs, events[0], clock);
      RunKeepsApart(Step(jobs, events[0]), events[1..], events[0].now);
    }
  }

  lemma Earlier(jobs: Jobs, clock: nat, now: nat)
    requires Stamped(jobs, clock) && clock <= now
    ensures Stamped(jobs, now)
  {
  }

  /** A candidate with an old stamp was there, under that stamp, when the stamp was old already. */
  lemma {:induction false} OldStampWasThere(jobs: Jobs, events: seq<Event>, clock: nat, job: string, key: string)
    requires Timed(events, clock) && Holds(Run(jobs, events), job, key)
    requires Run(jobs, events)[job][key].updatedAt.Some? && Run(jobs, events)[job][key].updatedAt.value <= clock
    ensures Holds(jobs, job, key)
    ensures jobs[job][key].updatedAt == Run(jobs, events)[job][key].updatedAt && jobs[job][key].fields == Run(jobs, events)[job][key].fields
    decreases |events|
  {
    hide Step;
    if events != [] {
      OldStampWasThere(Step(jobs, events[0]), events[1..], events[0].now, job, key);
      StepOld(jobs, events[0], job, key);
    }
  }

  /** A review that names the version it read commits only on exactly what it read, in the job it read it from, whether
      or not it names the job: no write in between changed it. */
  lemma ReviewSeesWhatItRead(jobs: Jobs, events: seq<Event>, clock: nat, within: Option<string>, job: string, key: string, changes: Fields,
                             expectedStatus: string, now: nat)
    requires Stamped(jobs, clock) && StampsApart(jobs) && Timed(events, clock) && Home(jobs, key, within) == Some(job)
    ensures Holds(jobs, job, key)
    ensures Review(Run(jobs, events), key, changes, expectedStatus, within, jobs[job][key].updatedAt, now).Ok? ==>
              var after := Review(Run(jobs, events), key, changes, expectedStatus, within, jobs[job][key].updatedAt, now).value;
              && Home(Run(jobs, events), key, within) == Some(job)
              && Holds(Run(jobs, events), job, key) && Run(jobs, events)[job][key].fields == jobs[job][key].fields
              && (forall j :: j in Run(jobs, events) && j != job ==> j in after && after[j] == Run(jobs, events)[j])
              && Holds(after, job, key)
              && forall name :: name in OWNED ==>
                   Get(after[job][key].fields, name) ==
                   if name in changes && Status(jobs[job][key]) == Some(expectedStatus) then changes[name]
                   else Get(jobs[job][key].fields, name)
  {
    hide Run, Homes, Home, OWNED;
    HomeHolds(jobs, key, within);
    HomeIsJob(jobs, key, within);
    var current, expected := Run(jobs, events), jobs[job][key].updatedAt;
    if Review(current, key, changes, expectedStatus, within, expected, now).Ok? {
      HomeHolds(current, key, within);
      HomeIsJob(current, key, within);
      var j := Home(current, key, within).value;
      ReviewGives(current[j][key], key, changes, expectedStatus, expected, now);
      OldStampWasThere(jobs, events, clock, j, key);
    }
  }

  /** A review applies all its changes to a candidate in the expected status; an approval of what is already
      approved under another expectation answers with the candidate as it is, other changes dropped. */
  lemma ReviewGives(c: Candidate, key: string, changes: Fields, expectedStatus: string, expected: Option<nat>, now: nat)
    requires ReviewOne(c, key, changes, expectedStatus, expected, now).Ok? && ValidChanges(changes)
    ensures expected.Some? ==> c.updatedAt == expected
    ensures var r := ReviewOne(c, key, changes, expectedStatus, expected, now).value;
            && (forall name :: name in OWNED ==>
                 Get(r.fields, name) == if name in changes && Status(c) == Some(expectedStatus) then changes[name] else Get(c.fields, name))
            && (Status(c) != Some(expectedStatus) ==> r == c && Status(c) == Some("approved") && Get(changes, "status") == Some("approved"))
  {
    OwnedIsNotId();
  }

  const TITLED := Candidate(map["status" := Some("approved"), "title" := Some("old"), "candidate_id" := Some("c")], map[], Some(1))

  /** An approval of what is approved already, expecting it pending, succeeds and drops the new title. */
  lemma ApprovalDropsTitle()
    ensures var jobs, changes := map["job" := map["c" := TITLED]], map["status" := Some("approved"), "title" := Some("new")];
            Review(jobs, "c", changes, "pending", None, Some(1), 2) == Ok(jobs)
  {
    var jobs, changes := map["job" := map["c" := TITLED]], map["status" := Some("approved"), "title" := Some("new")];
    assert Homes(jobs, "c", None) == {"job"};
    HomeHolds(jobs, "c", None);
    hide Home;
    assert Home(jobs, "c", None) == Some("job") by { HomeExists(jobs, "job", "c"); }
    assert jobs["job"]["c" := TITLED] == jobs["job"] && jobs["job" := jobs["job"]] == jobs;
  }

  lemma HomeExists(jobs: Jobs, job: string, key: string)
    requires Homes(jobs, key, None) == {job}
    ensures Home(jobs, key, None) == Some(job)
  {
    HomeHolds(jobs, key, None);
  }

  /** What a rollback undoes, wherever the candidate id is found by then: with nothing written since the approval, the
      candidate is field by field what it was. */
  lemma RollbackUndoes(jobs: Jobs, within: Option<string>, job: string, key: string, changes: Fields, expectedStatus: string,
                       expected: Option<nat>, approvedAt: nat, events: seq<Event>, now: nat)
    requires approvedAt > 0 && Stamped(jobs, approvedAt - 1) && Timed(events, approvedAt) && Home(jobs, key, within) == Some(job)
    requires Review(jobs, key, changes, expectedStatus, within, expected, approvedAt).Ok?
    ensures Holds(jobs, job, key)
    ensures var before := jobs[job][key].fields;
            var current := Run(Review(jobs, key, changes, expectedStatus, within, expected, approvedAt).value, events);
            Rollback(current, key, before, approvedAt, now).Ok? ==>
              var after := Rollback(current, key, before, approvedAt, now).value;
              Holds(after, job, key) && after[job][key].fields == before["candidate_id" := Some(key)]
  {
    hide Run, Homes, Home, OWNED;
    HomeHolds(jobs, key, within);
    HomeIsJob(jobs, key, within);
    var c := jobs[job][key];
    var approved := Review(jobs, key, changes, expectedStatus, within, expected, approvedAt).value;
    var current := Run(approved, events);
    if Rollback(current, key, c.fields, approvedAt, now).Ok? {
      HomeHolds(current, key, None);
      HomeIsJob(current, key, None);
      var j := Home(current, key, None).value;
      OldStampWasThere(approved, events, approvedAt, j, key);
      assert j == job;
      RestoreUndoes(c, key, changes, approvedAt, now);
      SameFieldsRestored(current[j][key], Changed(c, changes, key, approvedAt), c.fields, now);
    }
  }

  lemma RestoreUndoes(c: Candidate, key: string, changes: Fields, approvedAt: nat, now: nat)
    requires changes.Keys <= OWNED
    ensures Restored(Changed(c, changes, key, approvedAt), c.fields, now).fields == c.fields["candidate_id" := Some(key)]
  {
    OwnedIsNotId();
  }

  lemma SameFieldsRestored(a: Candidate, b: Candidate, previous: Fields, now: nat)
    requires a.fields == b.fields
    ensures Restored(a, previous, now).fields == Restored(b, previous, now).fields
  {
  }

  // ----- the store object -----

  class FeatureJobFileStore {
    /** The snapshot of each job, under its directory name. */
    var jobs: Jobs

    constructor ()
      ensures jobs == map[]
    {
      jobs := map[];
    }

    /** `_save_locked` and its write. */
    method SaveJob(job: string, incoming: Incoming, now: nat)
      modifies this
      ensures jobs == Save(old(jobs), job, incoming, now)
    {
      hide SaveOne, FileKey;
      var features := Stored(jobs, job);
      ghost var stored := features;
      for i := 0 to |incoming|
        invariant SaveAll(features, incoming[i..], now) == SaveAll(stored, incoming, now)
      {
        assert incoming[i..][0] == incoming[i] && incoming[i..][1..] == incoming[i + 1..];
        var candidate := incoming[i].1;
        var key := FileKey(incoming[i].0, candidate);
        features := features[key := SaveOne(Find(features, key), candidate, key, now)];
      }
      jobs := jobs[job := features];
    }

    method SaveGeneratedCandidate(job: string, key: string, candidate: Candidate, now: nat) returns (refused: Option<Refusal>)
      modifies this
      ensures match SaveGenerated(old(jobs), job, key, candidate, now)
              case Ok(after) => refused == None && jobs == after
              case Err(e) => refused == Some(e) && jobs == old(jobs)
    {
      hide GeneratedFeatures, Save;
      if key == "" {
        return Some(InvalidUpdate);
      }
      if job !in jobs {
        return Some(NotFound);
      }
      var features := GeneratedFeatures(jobs[job], key, candidate);
      var keys := SortTexts(features.Keys);
      SaveJob(job, PairsOf(features, keys), now);
      return None;
    }

    /** `load_candidate`: the first job, in directory order, that has the candidate. */
    method LocateHome(key: string, within: Option<string>) returns (home: Option<string>)
      ensures home == Home(jobs, key, within)
    {
      hide TextLess, SortedTexts, Home, Homes;
      var sorted := SortTexts(jobs.Keys);
      for i := 0 to |sorted|
        invariant forall j :: 0 <= j < i ==> sorted[j] !in Homes(jobs, key, within)
      {
        assert sorted[i] in sorted;
        InHomes(jobs, key, within, sorted[i]);
        if key in jobs[sorted[i]] && (within.None? || within.value == sorted[i]) {
          FirstIsHome(jobs, key, within, sorted, i);
          return Some(sorted[i]);
        }
      }
      NoHome(jobs, key, within, sorted);
      return None;
    }

    method ReviewCandidate(key: string, changes: Fields, expectedStatus: string, within: Option<string>, expected: Option<nat>, now: nat)
      returns (refused: Option<Refusal>)
      modifies this
      ensures match Review(old(jobs), key, changes, expectedStatus, within, expected, now)
              case Ok(after) => refused == None && jobs == after
              case Err(e) => refused == Some(e) && jobs == old(jobs)
    {
      if !ValidChanges(changes) {
        return Some(InvalidUpdate);
      }
      var home := LocateHome(key, within);
      if home.None? {
        return Some(NotFound);
      }
      HomeHolds(jobs, key, within);
      var c := jobs[home.value][key];
      var requested := Get(changes, "status");
      assert jobs[home.value][key := c] == jobs[home.value];
      assert jobs[home.value := jobs[home.value][key := c]] == jobs;
      if Decided(c) && requested.Some? && requested != Status(c) {
        return Some(StateConflict);
      }
      if expected.Some? && c.updatedAt != expected {
        return Some(StateConflict);
      }
      if Status(c) != Some(expectedStatus) {
        return if Status(c) == Some("approved") && requested == Some("approved") then None else Some(StateConflict);
      }
      if forall name :: name in changes ==> Get(c.fields, name) == changes[name] {
        return None;
      }
      jobs := jobs[home.value := jobs[home.value][key := Changed(c, changes, key, now)]];
      return None;
    }

    method RollbackCandidate(key: string, previous: Fields, expected: nat, now: nat) returns (refused: Option<Refusal>)
      modifies this
      ensures match Rollback(old(jobs), key, previous, expected, now)
              case Ok(after) => refused == None && jobs == after
              case Err(e) => refused == Some(e) && jobs == old(jobs)
    {
      var home := LocateHome(key, None);
      if home.None? {
        return Some(NotFound);
      }
      HomeHolds(jobs, key, None);
      var c := jobs[home.value][key];
      if Status(c) != Some("approved") || c.updatedAt != Some(expected) {
        return Some(StateConflict);
      }
      jobs := jobs[home.value := jobs[home.value][key := Restored(c, previous, now)]];
      return None;
    }
  }
}
