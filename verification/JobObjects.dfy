/**
 The cached job objects of feature_jobs.py and the in-place restoration of approval_service.py.
 Objects other threads hold (the job, its entity list, its records, its paged collections) keep
 their identity; only their contents go back.
 */
module JobObjects {
  import opened Prelude

  /** A deep-copied JSON value, by its text. */
  type Value = string

  /** A record dictionary, its `entity_id` apart from the other fields. */
  datatype Content = Content(entityId: string, fields: map<string, Value>)

  class Record {
    var content: Content

    constructor (content: Content)
      ensures this.content == content
    {
      this.content := content;
    }
  }

  class RecordList {
    var items: seq<Record>
  }

  /** A paged collection: entities keep `loaded`, features `dirty`, events `pending`. */
  class Collection {
    var loaded: map<string, Record>
    var dirty: map<string, Value>
    var pending: seq<Value>
  }

  /** The collections of a job, and its `_active_record` when it is paged. */
  datatype Body =
    | Listed(list: RecordList, features: map<string, Value>, events: seq<Value>)
    | Paged(entities: Collection, featurePages: Collection, eventPages: Collection, active: Record?)

  class Job {
    var fields: map<string, Value>
    var body: Body
    /** At least every object restoring the job may write. */
    ghost var repr: set<object>

    constructor (fields: map<string, Value>, body: Body, ghost repr: set<object>)
      ensures this.fields == fields && this.body == body && this.repr == repr + {this}
    {
      this.fields, this.body, this.repr := fields, body, repr + {this};
    }

    ghost predicate Owned()
      reads this, repr
    {
      && this in repr
      && match body
         case Listed(list, _, _) => list in repr && forall r :: r in list.items ==> r in repr
         case Paged(entities, featurePages, eventPages, active) =>
           && entities in repr && featurePages in repr && eventPages in repr && (active != null ==> active in repr)
           && forall key :: key in entities.loaded ==> entities.loaded[key] in repr
    }
  }

  /** The deep copy `journal_job` keeps. */
  datatype Saved =
    | SavedListed(fields: map<string, Value>, records: seq<Content>, features: map<string, Value>, events: seq<Value>)
    | SavedPaged(fields: map<string, Value>, loaded: map<string, Content>, dirty: map<string, Value>,
                 pending: seq<Value>, active: Option<Content>)

  ghost function Contents(items: seq<Record>): (cs: seq<Content>)
    reads items
    ensures |cs| == |items| && forall k :: 0 <= k < |cs| ==> cs[k] == items[k].content
  {
    seq(|items|, k requires 0 <= k < |items| reads items => items[k].content)
  }

  ghost function LoadedContents(loaded: map<string, Record>): map<string, Content>
    reads loaded.Values
  {
    map key | key in loaded :: loaded[key].content
  }

  ghost function Ids(items: seq<Record>): set<string>
    reads items
  {
    set r | r in items :: r.content.entityId
  }

  ghost function ValueOf(job: Job): Saved
    requires job.Owned()
    reads job, job.repr
  {
    match job.body
    case Listed(list, features, events) => SavedListed(job.fields, Contents(list.items), features, events)
    case Paged(entities, featurePages, eventPages, active) =>
      SavedPaged(job.fields, LoadedContents(entities.loaded), featurePages.dirty, eventPages.pending, ActiveContent(active))
  }

  ghost function ActiveContent(active: Record?): Option<Content>
    reads if active == null then {} else {active}
  {
    if active == null then None else Some(active.content)
  }

  // ----- one listed job -----

  /** The record object `{item["entity_id"]: item for item in entities}` keeps for `id`: the last one. */
  ghost function LastWithId(items: seq<Record>, id: string): (r: Record?)
    reads items
    ensures r != null ==> r in items && r.content.entityId == id
    ensures r == null <==> id !in Ids(items)
  {
    if items == [] then null
    else if items[|items| - 1].content.entityId == id then items[|items| - 1]
    else LastWithId(items[..|items| - 1], id)
  }

  /** Two saved records with one surviving id would be written into one object. */
  ghost predicate Unambiguous(saved: seq<Content>, ids: set<string>) {
    forall i, j :: 0 <= i < j < |saved| && saved[i].entityId == saved[j].entityId && saved[i].entityId in ids
      ==> saved[i] == saved[j]
  }

  /** The content the loop has written last for `id` among the first `n` saved records. */
  ghost function LastSaved(saved: seq<Content>, n: nat, id: string): (c: Option<Content>)
    requires n <= |saved|
  {
    if n == 0 then None
    else if saved[n - 1].entityId == id then Some(saved[n - 1])
    else LastSaved(saved, n - 1, id)
  }

  lemma {:induction false} LastSavedFound(saved: seq<Content>, n: nat, k: nat) returns (j: nat)
    requires k < n <= |saved|
    ensures k <= j < n && LastSaved(saved, n, saved[k].entityId) == Some(saved[j])
    ensures saved[j].entityId == saved[k].entityId
  {
    if saved[n - 1].entityId == saved[k].entityId {
      j := n - 1;
    } else {
      j := LastSavedFound(saved, n - 1, k);
    }
  }

  method IndexRecords(items: seq<Record>) returns (records: map<string, Record>)
    ensures records.Keys == Ids(items)
    ensures forall id :: id in records ==> records[id] == LastWithId(items, id)
  {
    records := map[];
    for i := 0 to |items|
      invariant records.Keys == Ids(items[..i])
      invariant forall id :: id in records ==> records[id] == LastWithId(items[..i], id)
    {
      assert items[..i + 1][..i] == items[..i] && items[..i + 1] == items[..i] + [items[i]];
      records := records[items[i].content.entityId := items[i]];
    }
    assert items[..|items|] == items;
  }

  /** What the loop leaves in the records equals what was saved exactly when no two saved records clash. */
  lemma RefilledIsSaved(contents: seq<Content>, saved: seq<Content>, ids: set<string>)
    requires |contents| == |saved|
    requires forall k :: 0 <= k < |saved| ==>
               Some(contents[k]) == if saved[k].entityId in ids then LastSaved(saved, |saved|, saved[k].entityId)
                                    else Some(saved[k])
    ensures contents == saved <==> Unambiguous(saved, ids)
  {
    hide LastSaved;
    if contents == saved {
      forall i, j | 0 <= i < j < |saved| && saved[i].entityId == saved[j].entityId && saved[i].entityId in ids
        ensures saved[i] == saved[j]
      {
        assert Some(contents[i]) == Some(contents[j]);
      }
    } else {
      var k :| 0 <= k < |saved| && contents[k] != saved[k];
      var j := LastSavedFound(saved, |saved|, k);
    }
  }

  ghost predicate Distinct(records: map<string, Record>) {
    forall a, b :: a in records && b in records && a != b ==> records[a] != records[b]
  }

  method RefillRecords(records: map<string, Record>, saved: seq<Content>) returns (restored: seq<Record>)
    requires Distinct(records)
    modifies records.Values
    ensures |restored| == |saved|
    ensures forall k :: 0 <= k < |saved| ==>
              if saved[k].entityId in records then restored[k] == records[saved[k].entityId]
              else fresh(restored[k]) && restored[k].content == saved[k]
    ensures forall id :: id in records ==>
              var c := LastSaved(saved, |saved|, id);
              records[id].content == if c.Some? then c.value else old(records[id].content)
  {
    restored := [];
    for i := 0 to |saved|
      invariant |restored| == i
      invariant forall k :: 0 <= k < i ==>
                  if saved[k].entityId in records then restored[k] == records[saved[k].entityId]
                  else fresh(restored[k]) && restored[k].content == saved[k]
      invariant forall id :: id in records ==>
                  var c := LastSaved(saved, i, id);
                  records[id].content == if c.Some? then c.value else old(records[id].content)
    {
      var record := saved[i];
      if record.entityId in records {
        records[record.entityId].content := record;
        restored := restored + [records[record.entityId]];
      } else {
        var copied := new Record(record);
        restored := restored + [copied];
      }
    }
  }

  /** Writes the saved contents back into the records that survive and copies the others. */
  method RebuildRecords(records: map<string, Record>, saved: seq<Content>) returns (restored: seq<Record>)
    requires Distinct(records)
    modifies records.Values
    ensures |restored| == |saved|
    ensures forall k :: 0 <= k < |saved| ==>
              if saved[k].entityId in records then restored[k] == records[saved[k].entityId] else fresh(restored[k])
    ensures Contents(restored) == saved <==> Unambiguous(saved, records.Keys)
  {
    hide LastSaved;
    restored := RefillRecords(records, saved);
    forall k | 0 <= k < |saved|
      ensures Some(Contents(restored)[k]) ==
              if saved[k].entityId in records then LastSaved(saved, |saved|, saved[k].entityId) else Some(saved[k])
    {
      var j := LastSavedFound(saved, |saved|, k);
    }
    RefilledIsSaved(Contents(restored), saved, records.Keys);
  }

  method RestoreRecords(list: RecordList, saved: seq<Content>)
    modifies list, list.items
    ensures |list.items| == |saved|
    ensures forall k :: 0 <= k < |saved| ==>
              if saved[k].entityId in old(Ids(list.items))
              then list.items[k] == old(LastWithId(list.items, saved[k].entityId))
              else fresh(list.items[k])
    ensures Contents(list.items) == saved <==> Unambiguous(saved, old(Ids(list.items)))
  {
    var records := IndexRecords(list.items);
    assert forall id :: id in records ==> records[id] in list.items && records[id].content.entityId == id;
    list.items := RebuildRecords(records, saved);
  }

  method RestoreListed(job: Job, saved: Saved)
    requires job.Owned() && job.body.Listed? && saved.SavedListed?
    modifies job.repr
    ensures job.Owned() && fresh(job.repr - old(job.repr)) && old(job.repr) <= job.repr
    ensures job.body == Listed(old(job.body.list), saved.features, saved.events)
    ensures |job.body.list.items| == |saved.records|
    ensures forall k :: 0 <= k < |saved.records| && saved.records[k].entityId in old(Ids(job.body.list.items))
              ==> job.body.list.items[k] == old(LastWithId(job.body.list.items, saved.records[k].entityId))
    ensures ValueOf(job) == saved <==> Unambiguous(saved.records, old(Ids(job.body.list.items)))
  {
    hide Ids, LastWithId, Unambiguous;
    RestoreRecords(job.body.list, saved.records);
    job.fields := saved.fields;
    job.body := Listed(job.body.list, saved.features, saved.events);
    job.repr := job.repr + set r | r in job.body.list.items;
  }

  // ----- one paged job -----

  /** Loaded records are filed under their own identity. */
  ghost predicate Keyed(loaded: map<string, Record>)
    reads loaded.Values
  {
    forall key :: key in loaded ==> loaded[key].content.entityId == key
  }

  /** The loaded records with the active one filed over them. */
  function CurrentRecords(loaded: map<string, Record>, active: Record?): map<string, Record>
    reads if active == null then {} else {active}
  {
    if active == null then loaded else loaded[active.content.entityId := active]
  }

  /** The active record is written last: it must not hold another record's place. */
  ghost predicate ActiveAgrees(saved: Saved, active: Record?)
    requires saved.SavedPaged?
    reads if active == null then {} else {active}
  {
    active != null && saved.active.Some? ==>
      var id := active.content.entityId;
      id in saved.loaded ==> saved.loaded[id] == saved.active.value
  }

  method RefillLoaded(current: map<string, Record>, saved: map<string, Content>) returns (loaded: map<string, Record>)
    requires Distinct(current)
    modifies current.Values
    ensures loaded.Keys == saved.Keys
    ensures forall key :: key in loaded ==>
              loaded[key].content == saved[key] && (if key in current then loaded[key] == current[key] else fresh(loaded[key]))
    ensures forall key :: key in current && key !in saved ==> current[key].content == old(current[key].content)
  {
    loaded := map[];
    var todo := saved.Keys;
    while todo != {}
      invariant todo <= saved.Keys && loaded.Keys == saved.Keys - todo
      invariant forall key :: key in loaded ==>
                  loaded[key].content == saved[key] && (if key in current then loaded[key] == current[key] else fresh(loaded[key]))
      invariant forall key :: key in current && key !in loaded ==> current[key].content == old(current[key].content)
    {
      var key :| key in todo;
      var record: Record;
      if key in current {
        record := current[key];
        record.content := saved[key];
      } else {
        record := new Record(saved[key]);
      }
      loaded := loaded[key := record];
      todo := todo - {key};
    }
  }

  method RestoreLoaded(loaded: map<string, Record>, active: Record?, saved: Saved)
    returns (restored: map<string, Record>, restoredActive: Record?)
    requires saved.SavedPaged? && Keyed(loaded)
    modifies loaded.Values, if active == null then {} else {active}
    ensures if saved.active.None? then restoredActive == null
            else if active != null then restoredActive == active
            else restoredActive != null && fresh(restoredActive)
    ensures forall key :: key in restored ==>
              var current := old(CurrentRecords(loaded, active));
              if key in current then restored[key] == current[key] else fresh(restored[key])
    ensures LoadedContents(restored) == saved.loaded && ActiveContent(restoredActive) == saved.active <==>
            old(ActiveAgrees(saved, active))
  {
    var current := CurrentRecords(loaded, active);
    ghost var id := if active == null then "" else active.content.entityId;
    restored := RefillLoaded(current, saved.loaded);
    restoredActive := null;
    if saved.active.Some? {
      if active != null {
        active.content := saved.active.value;
        restoredActive := active;
        assert forall key :: key in restored && key != id ==> restored[key] != active;
        assert id in restored ==> restored[id] == active;
      } else {
        restoredActive := new Record(saved.active.value);
      }
    }
    assert LoadedContents(restored).Keys == saved.loaded.Keys;
    assert active != null && saved.active.Some? && id in saved.loaded ==>
      LoadedContents(restored)[id] == saved.active.value;
  }

  method RestorePaged(job: Job, saved: Saved)
    requires job.Owned() && job.body.Paged? && saved.SavedPaged? && Keyed(job.body.entities.loaded)
    modifies job.repr
    ensures job.Owned() && fresh(job.repr - old(job.repr)) && old(job.repr) <= job.repr
    ensures job.body.Paged? && job.body == old(job.body).(active := job.body.active)
    ensures if saved.active.None? then job.body.active == null
            else if old(job.body.active) != null then job.body.active == old(job.body.active)
            else job.body.active != null && fresh(job.body.active)
    ensures forall key :: key in job.body.entities.loaded ==>
              var current := old(CurrentRecords(job.body.entities.loaded, job.body.active));
              if key in current then job.body.entities.loaded[key] == current[key] else fresh(job.body.entities.loaded[key])
    ensures ValueOf(job) == saved <==> old(ActiveAgrees(saved, job.body.active))
  {
    var loaded, active := RestoreLoaded(job.body.entities.loaded, job.body.active, saved);
    Install(job, loaded, active, saved);
  }

  method Install(job: Job, loaded: map<string, Record>, active: Record?, saved: Saved)
    requires job.Owned() && job.body.Paged? && saved.SavedPaged?
    modifies job, job.body.entities, job.body.featurePages, job.body.eventPages
    ensures job.body == old(job.body).(active := active) && job.body.entities.loaded == loaded
    ensures job.Owned() && job.repr == old(job.repr) + loaded.Values + (if active == null then {} else {active})
    ensures ValueOf(job) == saved.(loaded := LoadedContents(loaded), active := ActiveContent(active))
    ensures LoadedContents(loaded) == old(LoadedContents(loaded)) && ActiveContent(active) == old(ActiveContent(active))
  {
    hide LoadedContents, ActiveContent;
    job.body.entities.loaded := loaded;
    job.body.featurePages.dirty := saved.dirty;
    job.body.eventPages.pending := saved.pending;
    job.fields := saved.fields;
    job.body := job.body.(active := active);
    job.repr := job.repr + loaded.Values + (if active == null then {} else {active});
  }

  // ----- any job -----

  ghost predicate WellFiled(job: Job)
    requires job.Owned()
    reads job, job.repr
  {
    job.body.Paged? ==> Keyed(job.body.entities.loaded)
  }

  /** What `_restore_job` needs of the present objects to bring `saved` back exactly. */
  ghost predicate Restorable(job: Job, saved: Saved)
    requires job.Owned()
    reads job, job.repr
  {
    match saved
    case SavedListed(_, records, _, _) => job.body.Listed? && Unambiguous(records, Ids(job.body.list.items))
    case SavedPaged(_, _, _, _, _) => job.body.Paged? && ActiveAgrees(saved, job.body.active)
  }

  /** The record object the restoration finds for each identity. */
  ghost function Survivors(job: Job): map<string, Record?>
    requires job.Owned()
    reads job, job.repr
  {
    match job.body
    case Listed(list, _, _) => map id | id in Ids(list.items) :: LastWithId(list.items, id)
    case Paged(entities, _, _, active) => CurrentRecords(entities.loaded, active)
  }

  /** What a job is when its restoration starts. */
  datatype Entry = Entry(value: Saved, restorable: bool, body: Body, survivors: map<string, Record?>)

  ghost function EntryOf(job: Job, saved: Option<Saved>): Entry
    requires job.Owned()
    reads job, job.repr
  {
    Entry(ValueOf(job), saved.Some? && Restorable(job, saved.value), job.body, Survivors(job))
  }

  /** The objects another thread may hold are still the ones the job uses. */
  ghost predicate KeepsObjects(job: Job, entry: Entry, saved: Saved)
    requires job.Owned()
    reads job, job.repr
  {
    match entry.body
    case Listed(list, _, _) =>
      && job.body.Listed? && job.body.list == list && saved.SavedListed? && |list.items| == |saved.records|
      && forall k :: 0 <= k < |list.items| && saved.records[k].entityId in entry.survivors
           ==> list.items[k] == entry.survivors[saved.records[k].entityId]
    case Paged(entities, featurePages, eventPages, active) =>
      && job.body.Paged? && job.body == entry.body.(active := job.body.active)
      && saved.SavedPaged? && (saved.active.Some? && active != null ==> job.body.active == active)
      && forall key :: key in entities.loaded && key in entry.survivors ==> entities.loaded[key] == entry.survivors[key]
  }

  /** What the failure branch leaves of a surviving job: exactly what was saved, in the same objects,
      if and only if the job was restorable; a job never journaled is left alone. */
  ghost predicate Settled(job: Job, entry: Entry, saved: Option<Saved>)
    requires job.Owned()
    reads job, job.repr
  {
    match saved
    case None => ValueOf(job) == entry.value && job.body == entry.body
    case Some(value) => KeepsObjects(job, entry, value) && (ValueOf(job) == value <==> entry.restorable)
  }

  lemma LeftAlone(job: Job)
    requires job.Owned()
    ensures Settled(job, EntryOf(job, None), None)
  {
  }

  predicate SavedWellFiled(saved: Saved) {
    saved.SavedPaged? ==> forall key :: key in saved.loaded ==> saved.loaded[key].entityId == key
  }

  lemma ValueDecidesFiling(job: Job)
    requires job.Owned()
    ensures WellFiled(job) <==> SavedWellFiled(ValueOf(job))
    ensures job.body.Paged? <==> ValueOf(job).SavedPaged?
  {
    if job.body.Paged? {
      var loaded := job.body.entities.loaded;
      assert forall key :: key in loaded ==> LoadedContents(loaded)[key] == loaded[key].content;
    }
  }

  method RestoreJob(job: Job, saved: Saved)
    requires job.Owned() && WellFiled(job) && (job.body.Paged? <==> saved.SavedPaged?)
    modifies job.repr
    ensures job.Owned() && fresh(job.repr - old(job.repr)) && old(job.repr) <= job.repr
    ensures Settled(job, old(EntryOf(job, Some(saved))), Some(saved))
  {
    if job.body.Paged? {
      RestorePaged(job, saved);
    } else {
      RestoreListed(job, saved);
    }
  }

  // ----- when restoring loses something -----

  /** Records of distinct entities, as a job is created with, can always be restored. */
  lemma DistinctIsUnambiguous(saved: seq<Content>)
    requires forall i, j :: 0 <= i < j < |saved| ==> saved[i].entityId != saved[j].entityId
    ensures forall ids :: Unambiguous(saved, ids)
  {
  }

  const FIRST := Content("e", map["status" := "queued"])
  const SECOND := Content("e", map["status" := "failed"])

  /** Two records of one entity. */
  const TWINS := SavedListed(map[], [FIRST, SECOND], map[], [])

  /** A loaded record beside an active record of the same entity. */
  const STALE := SavedPaged(map[], map["e" := FIRST], map[], [], Some(SECOND))

  method MakeTwins() returns (job: Job)
    ensures fresh(job) && fresh(job.repr) && job.Owned() && ValueOf(job) == TWINS
  {
    var a := new Record(FIRST);
    var b := new Record(SECOND);
    var list := new RecordList;
    list.items := [a, b];
    job := new Job(map[], Listed(list, map[], []), {list, a, b});
    assert Contents(list.items) == [FIRST, SECOND];
  }

  /** Nothing was written in between, and yet the first record is not what it was. */
  method RestoreTwins(job: Job)
    requires job.Owned() && ValueOf(job) == TWINS
    modifies job.repr
    ensures job.Owned() && ValueOf(job) != TWINS
  {
    ghost var items := job.body.list.items;
    assert Contents(items)[0] == FIRST && Contents(items)[1] == SECOND;
    assert items[0] in items && "e" in Ids(items);
    assert FIRST.fields["status"] != SECOND.fields["status"];
    assert !Unambiguous(TWINS.records, Ids(items)) by { assert TWINS.records[0] != TWINS.records[1]; }
    RestoreJob(job, TWINS);
  }

  method MakeStale() returns (job: Job)
    ensures fresh(job) && fresh(job.repr) && job.Owned() && WellFiled(job) && ValueOf(job) == STALE
  {
    var loaded := new Record(FIRST);
    var active := new Record(SECOND);
    var entities, features, events := new Collection, new Collection, new Collection;
    entities.loaded, features.dirty, events.pending := map["e" := loaded], map[], [];
    job := new Job(map[], Paged(entities, features, events, active), {entities, features, events, loaded, active});
    assert LoadedContents(entities.loaded) == map["e" := FIRST];
  }

  /** The loaded record comes back with what the active one held. */
  method RestoreStale(job: Job)
    requires job.Owned() && WellFiled(job) && ValueOf(job) == STALE
    modifies job.repr
    ensures job.Owned() && ValueOf(job) != STALE
  {
    assert FIRST.fields["status"] != SECOND.fields["status"];
    assert job.body.Paged? && !ActiveAgrees(STALE, job.body.active);
    RestoreJob(job, STALE);
  }

  /** The twins, built, saved as they are and restored at once. */
  method TwinsAreLost() returns (job: Job)
    ensures fresh(job) && job.Owned() && ValueOf(job) != TWINS
  {
    job := MakeTwins();
    RestoreTwins(job);
  }

  method StaleIsLost() returns (job: Job)
    ensures fresh(job) && job.Owned() && ValueOf(job) != STALE
  {
    job := MakeStale();
    RestoreStale(job);
  }
}
