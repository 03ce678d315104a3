/** The approval unit of work of approval_service.py, with the cache slice of the job manager it guards. */
module UnitOfWork {
  import opened Prelude
  import opened JobObjects

  datatype Observation = Observation(jobId: string, event: string, payload: Value, sequence: int)

  /** A store handle: the manager's own, or the same bound to one open connection. */
  datatype Store = Unbound(name: string) | Bound(name: string, connection: nat)

  datatype Stores = Stores(persistence: Store, rules: Store, groups: Store)

  function Bind(store: Store, connection: nat): Store { Bound(store.name, connection) }

  ghost function CollectionsOf(body: Body): set<Collection> {
    match body
    case Listed(_, _, _) => {}
    case Paged(entities, featurePages, eventPages, _) => {entities, featurePages, eventPages}
  }

  ghost function Collections(job: Job): set<Collection>
    reads job
  {
    CollectionsOf(job.body)
  }

  function Lookup(journal: Option<map<string, Saved>>, key: string): Option<Saved> {
    if journal.Some? && key in journal.value then Some(journal.value[key]) else None
  }

  class ApprovalUnit {
    var jobs: map<string, Job>
    var stores: Stores
    /** The `store` attribute of every paged collection. */
    var handles: map<Collection, Store>
    var snapshots: Option<map<string, Saved>>
    /** The collections bound inside the unit; each gets the manager's own store back on exit. */
    var proxied: set<Collection>
    var pending: Option<seq<Observation>>
    var emitted: seq<Observation>
    // what the context manager remembers between entry and exit
    var originals: Stores
    var existing: set<string>
    /** The value of every cached job at entry. */
    ghost var baseline: map<string, Saved>
    /** The objects of the jobs cached at entry and never dropped since. */
    ghost var held: map<string, Job>
    // during a failure: what each cached job was before its restoration, the keys still to visit,
    // and the key each object belongs to
    ghost var entries: map<string, Entry>
    ghost var remaining: set<string>
    ghost var owner: map<object, string>

    constructor (stores: Stores)
      requires stores.persistence.Unbound? && stores.rules.Unbound? && stores.groups.Unbound?
      ensures Idle() && jobs == map[] && emitted == [] && this.stores == stores
    {
      jobs, handles, snapshots, proxied, pending, emitted, existing := map[], map[], None, {}, None, [], {};
      this.stores, originals := stores, stores;
    }

    /** Jobs share no mutable object with each other. */
    ghost predicate Separate()
      reads *
    {
      && (forall key :: key in jobs ==> jobs[key].Owned() && this !in jobs[key].repr && WellFiled(jobs[key]))
      && (forall a, b :: a in jobs && b in jobs && a != b ==> jobs[a].repr !! jobs[b].repr)
      && (forall key :: key in jobs ==> Collections(jobs[key]) <= handles.Keys)
    }

    /** Outside a unit: nothing journaled, nothing deferred, every store handle the manager's own. */
    ghost predicate Idle()
      reads *
    {
      && Separate()
      && snapshots.None? && pending.None? && proxied == {}
      && stores.persistence.Unbound? && stores.rules.Unbound? && stores.groups.Unbound?
      && forall c :: c in handles ==> handles[c] == stores.persistence
    }

    /** Every job cached since entry is journaled at its entry value, or still has it. */
    ghost predicate Covered()
      requires Separate()
      reads *
    {
      && snapshots.Some? && existing == baseline.Keys
      && (forall key :: key in snapshots.value && key in existing ==> snapshots.value[key] == baseline[key])
      && (forall key :: key in jobs && key in existing && key !in snapshots.value ==> ValueOf(jobs[key]) == baseline[key])
      && (forall key :: key in jobs && key in existing ==> (jobs[key].body.Paged? <==> baseline[key].SavedPaged?))
      && (forall key :: key in baseline ==> SavedWellFiled(baseline[key]))
    }

    ghost predicate InUnit()
      reads *
    {
      && Separate() && Covered() && HandlesTracked({}) && HeldCached()
      && pending.Some? && stores.persistence.Bound?
      && originals.persistence.Unbound? && originals.rules.Unbound? && originals.groups.Unbound?
    }

    ghost predicate HeldCached()
      reads `jobs, `held, `existing
    {
      forall key :: key in held ==> key in existing && key in jobs && jobs[key] == held[key]
    }

    /** Every collection but these is either the manager's own or will be reset on exit. */
    ghost predicate HandlesTracked(but: set<Collection>)
      reads `proxied, `handles, `originals
    {
      && proxied <= handles.Keys
      && forall c :: c in handles && c !in proxied && c !in but ==> handles[c] == originals.persistence
    }

    /** Writing only the unit's own fields leaves every job as it was. */
    twostate lemma JobsUntouched()
      requires old(Separate()) && jobs.Keys <= old(jobs.Keys) && old(handles.Keys) <= handles.Keys
      requires forall key :: key in jobs ==> jobs[key] == old(jobs)[key]
      requires forall key :: key in jobs ==> forall o :: o in old(jobs[key].repr) && o != this ==> unchanged(o)
      ensures Separate()
      ensures forall key :: key in jobs ==> ValueOf(jobs[key]) == old(ValueOf(jobs[key])) && jobs[key].body == old(jobs[key].body)
    {
      forall key | key in jobs
        ensures jobs[key].Owned() && jobs[key].repr == old(jobs[key].repr) && WellFiled(jobs[key])
        ensures ValueOf(jobs[key]) == old(ValueOf(jobs[key])) && jobs[key].body == old(jobs[key].body)
      {
        assert jobs[key] in old(jobs[key].repr);
      }
    }

    method DeepCopy(job: Job) returns (saved: Saved)
      requires job.Owned()
      ensures saved == ValueOf(job)
    {
      match job.body
      case Listed(list, features, events) =>
        var records := seq(|list.items|, k requires 0 <= k < |list.items| reads list, list.items => list.items[k].content);
        saved := SavedListed(job.fields, records, features, events);
      case Paged(entities, featurePages, eventPages, active) =>
        var loaded := map key | key in entities.loaded :: entities.loaded[key].content;
        saved := SavedPaged(job.fields, loaded, featurePages.dirty, eventPages.pending,
                            if active == null then None else Some(active.content));
    }

    method BindOne(collection: Collection)
      requires stores.persistence.Bound?
      modifies `proxied, `handles
      ensures proxied == old(proxied) + {collection}
      ensures handles == if collection in old(proxied) then old(handles)
                         else old(handles)[collection := Bind(originals.persistence, stores.persistence.connection)]
    {
      if collection !in proxied {
        proxied := proxied + {collection};
        handles := handles[collection := Bind(originals.persistence, stores.persistence.connection)];
      }
    }

    /** The second half of `journal_job`: paged readers must see their own transaction. */
    method BindCollections(job: Job)
      requires stores.persistence.Bound?
      modifies `proxied, `handles
      ensures proxied == old(proxied) + Collections(job)
      ensures handles.Keys == old(handles).Keys + (Collections(job) - old(proxied))
      ensures forall c :: c in handles ==>
                handles[c] == if c in Collections(job) && c !in old(proxied)
                              then Bind(originals.persistence, stores.persistence.connection) else old(handles)[c]
    {
      if job.body.Paged? {
        BindOne(job.body.entities);
        BindOne(job.body.featurePages);
        BindOne(job.body.eventPages);
      }
    }

    /** Snapshots one job before its first mutation and binds its paged readers. */
    method Journal(key: string)
      requires key in jobs && jobs[key].Owned() && (snapshots.Some? ==> stores.persistence.Bound?)
      modifies `snapshots, `proxied, `handles
      ensures old(snapshots).None? ==> snapshots.None? && proxied == old(proxied) && handles == old(handles)
      ensures old(snapshots).Some? ==>
                && snapshots == Some(if key in old(snapshots).value then old(snapshots).value
                                     else old(snapshots).value[key := old(ValueOf(jobs[key]))])
                && proxied == old(proxied) + Collections(jobs[key])
                && handles.Keys == old(handles).Keys + (Collections(jobs[key]) - old(proxied))
                && forall c :: c in handles ==>
                     handles[c] == if c in Collections(jobs[key]) && c !in old(proxied)
                                   then Bind(originals.persistence, stores.persistence.connection) else old(handles)[c]
    {
      if snapshots.None? {
        return;
      }
      if key !in snapshots.value {
        var copied := DeepCopy(jobs[key]);
        snapshots := Some(snapshots.value[key := copied]);
      }
      BindCollections(jobs[key]);
    }

    /** Remembers what is there and binds the stores. */
    method BindStores(connection: nat)
      requires Idle()
      modifies `originals, `existing, `baseline, `held, `snapshots, `proxied, `stores
      ensures originals == old(stores) && existing == jobs.Keys && held == jobs && snapshots == Some(map[]) && proxied == {}
      ensures baseline == old(Values())
      ensures stores == Stores(Bound(originals.persistence.name, connection), Bound(originals.rules.name, connection),
                               Bound(originals.groups.name, connection))
    {
      IdleKnows();
      originals, existing, baseline, held := stores, jobs.Keys, Values(), jobs;
      snapshots, proxied := Some(map[]), {};
      stores := Stores(Bind(stores.persistence, connection), Bind(stores.rules, connection), Bind(stores.groups, connection));
    }

    /** Enters a unit: binds the stores, journals the named jobs (all of them when none are named). */
    method Begin(connection: nat, jobIds: Option<set<string>>)
      requires Idle()
      modifies this
      ensures InUnit() && jobs == old(jobs) && pending == Some([]) && emitted == old(emitted)
      ensures originals == old(stores) && existing == jobs.Keys && held == jobs
      ensures baseline.Keys == jobs.Keys && forall key :: key in jobs ==> baseline[key] == old(ValueOf(jobs[key]))
      ensures snapshots.Some? && snapshots.value.Keys == if jobIds.None? then jobs.Keys else jobs.Keys * jobIds.value
      ensures forall key :: key in snapshots.value ==> snapshots.value[key] == old(ValueOf(jobs[key]))
      ensures stores == Stores(Bound(originals.persistence.name, connection), Bound(originals.rules.name, connection),
                               Bound(originals.groups.name, connection))
      ensures ReadersBound()
    {
      hide ReadersBound, ValueOf, WellFiled, Collections, Separate, Covered, HeldCached, Owners, Idle, SavedWellFiled, HandlesTracked, InUnit;
      IdleKnows();
      BindStores(connection);
      JobsUntouched();
      TrackedAtEntry();
      JournalAll(if jobIds.None? then jobs.Keys else jobs.Keys * jobIds.value);
      label journaled:
      pending := Some([]);
      StillBound@journaled();
      JobsUntouched();
      CoveredAtEntry();
      HeldAtEntry();
      Entered();
    }

    twostate lemma StillBound()
      requires old(ReadersBound()) && jobs == old(jobs) && handles == old(handles) && proxied == old(proxied)
      requires snapshots == old(snapshots) && stores == old(stores) && originals == old(originals)
      requires forall key :: key in jobs ==> jobs[key].body == old(jobs[key].body)
      ensures ReadersBound()
    {
    }

    lemma Entered()
      requires Separate() && Covered() && HandlesTracked({}) && HeldCached() && pending.Some? && stores.persistence.Bound?
      requires originals.persistence.Unbound? && originals.rules.Unbound? && originals.groups.Unbound?
      ensures InUnit()
    {
    }

    lemma IdleKnows()
      requires Idle()
      ensures Separate() && stores.persistence.Unbound? && stores.rules.Unbound? && stores.groups.Unbound?
      ensures forall c :: c in handles ==> handles[c] == stores.persistence
    {
    }

    lemma TrackedAtEntry()
      requires proxied == {} && forall c :: c in handles ==> handles[c] == originals.persistence
      ensures HandlesTracked({})
    {
    }

    lemma HeldAtEntry()
      requires held == jobs && existing == jobs.Keys
      ensures HeldCached()
    {
    }

    twostate lemma HeldWith(key: string)
      requires old(HeldCached() && key !in jobs) && key in jobs && jobs == old(jobs)[key := jobs[key]]
      requires held == old(held) && existing == old(existing)
      ensures HeldCached()
    {
    }

    lemma CoveredAtEntry()
      requires Separate() && snapshots.Some? && existing == baseline.Keys == jobs.Keys
      requires forall key :: key in jobs ==> baseline[key] == ValueOf(jobs[key])
      requires forall key :: key in jobs ==> SavedWellFiled(baseline[key]) && (jobs[key].body.Paged? <==> baseline[key].SavedPaged?)
      requires forall key :: key in snapshots.value && key in jobs ==> snapshots.value[key] == baseline[key]
      ensures Covered()
    {
    }

    ghost function Values(): (values: map<string, Saved>)
      requires Separate()
      reads *
      ensures values.Keys == jobs.Keys && forall key :: key in jobs ==> values[key] == ValueOf(jobs[key])
      ensures forall key :: key in jobs ==> SavedWellFiled(values[key]) && (jobs[key].body.Paged? <==> values[key].SavedPaged?)
    {
      assert forall key :: key in jobs ==> SavedWellFiled(ValueOf(jobs[key])) by {
        forall key | key in jobs ensures SavedWellFiled(ValueOf(jobs[key])) { ValueDecidesFiling(jobs[key]); }
      }
      map key | key in jobs :: ValueOf(jobs[key])
    }

    /** What a paged collection bound inside the unit reads through: the manager's own store on the unit's connection. */
    function Inside(): Store
      reads `originals, `stores
    {
      if stores.persistence.Bound? then Bind(originals.persistence, stores.persistence.connection) else stores.persistence
    }

    /** The readers of every journaled job see the unit's own transaction. */
    ghost predicate ReadersBound()
      reads *
    {
      && (forall c :: c in proxied ==> c in handles && handles[c] == Inside())
      && (snapshots.Some? ==> forall key :: key in snapshots.value && key in jobs ==> Collections(jobs[key]) <= proxied)
    }

    lemma NothingBound()
      requires proxied == {} && snapshots == Some(map[])
      ensures ReadersBound()
    {
    }

    twostate lemma NextBound(key: string)
      requires old(ReadersBound() && snapshots.Some?) && snapshots.Some? && key in jobs
      requires jobs == old(jobs) && stores == old(stores) && originals == old(originals) && stores.persistence.Bound?
      requires forall k :: k in jobs ==> jobs[k].body == old(jobs[k].body)
      requires snapshots.value.Keys == old(snapshots).value.Keys + {key}
      requires proxied == old(proxied) + Collections(jobs[key]) && handles.Keys == old(handles).Keys + (Collections(jobs[key]) - old(proxied))
      requires forall c :: c in handles ==>
                 handles[c] == if c in Collections(jobs[key]) && c !in old(proxied) then Inside() else old(handles)[c]
      ensures ReadersBound()
    {
      hide WellFiled;
    }

    method JournalNext(key: string)
      requires Separate() && key in jobs && snapshots.Some? && key !in snapshots.value && stores.persistence.Bound?
      requires HandlesTracked({}) && ReadersBound()
      modifies `snapshots, `proxied, `handles
      ensures Separate() && HandlesTracked({}) && ReadersBound() && handles.Keys == old(handles.Keys)
      ensures Values() == old(Values()) && snapshots == Some(old(snapshots).value[key := old(Values())[key]])
    {
      hide ValueOf, WellFiled, Collections, ReadersBound;
      label before:
      Journal(key);
      NextBound@before(key);
      hide Separate;
      JobsUntouched();
    }

    method JournalAll(keys: set<string>)
      requires keys <= jobs.Keys && snapshots == Some(map[]) && stores.persistence.Bound? && HandlesTracked({})
      requires Separate() && proxied == {}
      modifies `snapshots, `proxied, `handles
      ensures snapshots.Some? && snapshots.value.Keys == keys
      ensures forall key :: key in keys ==> snapshots.value[key] == old(ValueOf(jobs[key]))
      ensures HandlesTracked({}) && handles.Keys == old(handles.Keys) && ReadersBound()
    {
      hide ValueOf, WellFiled, Separate, HandlesTracked, ReadersBound;
      NothingBound();
      ghost var values := Values();
      var todo := keys;
      while todo != {}
        invariant todo <= keys && snapshots.Some? && snapshots.value.Keys == keys - todo
        invariant Separate() && Values() == values && forall key :: key in snapshots.value ==> snapshots.value[key] == values[key]
        invariant HandlesTracked({}) && ReadersBound() && handles.Keys == old(handles.Keys)
        modifies `snapshots, `proxied, `handles
      {
        var key :| key in todo;
        JournalNext(key);
        todo := todo - {key};
      }
    }

    /** Adding a separate job to the cache, its collections known, keeps the jobs separate. */
    twostate lemma SeparateWith(key: string)
      requires old(Separate()) && old(key !in jobs) && key in jobs && jobs == old(jobs)[key := jobs[key]]
      requires old(handles.Keys) + Collections(jobs[key]) <= handles.Keys
      requires forall k :: k in old(jobs) ==> forall o :: o in old(jobs[k].repr) && o != this ==> unchanged(o)
      requires jobs[key].Owned() && WellFiled(jobs[key]) && this !in jobs[key].repr
      requires forall k :: k in old(jobs) ==> old(jobs[k].repr) !! jobs[key].repr
      ensures Separate()
      ensures forall k :: k in old(jobs) ==> ValueOf(jobs[k]) == old(ValueOf(jobs[k])) && jobs[k].body == old(jobs[k].body)
    {
      forall k | k in old(jobs)
        ensures jobs[k].Owned() && jobs[k].repr == old(jobs[k].repr) && WellFiled(jobs[k])
        ensures ValueOf(jobs[k]) == old(ValueOf(jobs[k])) && jobs[k].body == old(jobs[k].body)
      {
        assert jobs[k] in old(jobs[k].repr);
      }
    }

    /** A hydrated job's collections come from the store bound at that moment. */
    method Hydrate(job: Job)
      modifies `handles
      ensures handles.Keys == old(handles).Keys + Collections(job)
      ensures forall c :: c in handles ==> handles[c] == if c in Collections(job) then stores.persistence else old(handles)[c]
    {
      if job.body.Paged? {
        handles := handles[job.body.entities := stores.persistence];
        handles := handles[job.body.featurePages := stores.persistence];
        handles := handles[job.body.eventPages := stores.persistence];
      }
    }

    /** Caches a job read from the store and journals it. */
    method Admit(key: string, job: Job)
      requires key !in jobs && job.Owned() && snapshots.Some? && stores.persistence.Bound? && proxied <= handles.Keys
      requires this !in job.repr && Collections(job) !! handles.Keys
      modifies `jobs, `snapshots, `proxied, `handles
      ensures jobs == old(jobs)[key := job]
      ensures snapshots == Some(if key in old(snapshots).value then old(snapshots).value else old(snapshots).value[key := old(ValueOf(job))])
      ensures handles.Keys == old(handles).Keys + Collections(job) && proxied == old(proxied) + Collections(job)
      ensures forall c :: c in handles ==> handles[c] == if c in Collections(job) then Inside() else old(handles)[c]
    {
      hide ValueOf, Collections;
      Hydrate(job);
      jobs := jobs[key := job];
      Journal(key);
    }

    /** Reads a job that was not cached: its paged collections arrive bound to this transaction. */
    method Load(key: string, job: Job)
      requires InUnit() && key !in jobs && job.Owned() && WellFiled(job)
      requires key in existing ==> key in snapshots.value && (job.body.Paged? <==> baseline[key].SavedPaged?)
      requires this !in job.repr && Collections(job) !! handles.Keys
      requires forall k :: k in jobs ==> jobs[k].repr !! job.repr
      modifies `jobs, `snapshots, `proxied, `handles
      ensures InUnit() && jobs == old(jobs)[key := job]
      ensures snapshots == Some(if key in old(snapshots).value then old(snapshots).value else old(snapshots).value[key := old(ValueOf(job))])
      ensures handles.Keys == old(handles).Keys + Collections(job) && proxied == old(proxied) + Collections(job)
      ensures forall c :: c in handles ==> handles[c] == if c in Collections(job) then Inside() else old(handles)[c]
    {
      hide ValueOf, WellFiled, Separate, Covered, HeldCached, Collections;
      SnapshotsKnown();
      Admit(key, job);
      SeparateWith(key);
      CoveredWith(key);
      HeldWith(key);
    }

    lemma SnapshotsKnown()
      requires InUnit()
      ensures snapshots.Some?
    {
    }

    twostate lemma CoveredWith(key: string)
      requires old(Separate() && Covered() && key !in jobs) && Separate() && key in jobs && jobs == old(jobs)[key := jobs[key]]
      requires existing == old(existing) && baseline == old(baseline) && snapshots.Some? && key in snapshots.value
      requires forall k :: k in snapshots.value ==> (k in old(snapshots).value && snapshots.value[k] == old(snapshots).value[k])
                                                    || (k == key && k !in existing)
      requires old(snapshots).value.Keys <= snapshots.value.Keys
      requires key in existing ==> (jobs[key].body.Paged? <==> baseline[key].SavedPaged?)
      requires forall k :: k in old(jobs) ==> ValueOf(jobs[k]) == old(ValueOf(jobs[k])) && jobs[k].body == old(jobs[k].body)
      ensures Covered()
    {
    }

    /** Drops a cached job, as the history trim does. */
    method Evict(key: string)
      requires InUnit()
      modifies `jobs, `held
      ensures InUnit() && jobs == old(jobs) - {key} && held == old(held) - {key}
    {
      jobs, held := jobs - {key}, held - {key};
    }

    /** The hypothesis of the whole module: whatever a body writes, in a job it has journaled,
        leaves the unit able to take it back. */
    twostate lemma JournaledMutation(key: string)
      requires old(InUnit()) && unchanged(this) && key in jobs && (key in existing ==> key in snapshots.value)
      requires forall k :: k in jobs && k != key ==> forall o :: o in old(jobs[k].repr) ==> unchanged(o)
      requires Separate() && (jobs[key].body.Paged? <==> old(jobs[key].body.Paged?))
      ensures InUnit()
    {
      forall k | k in jobs && k != key
        ensures ValueOf(jobs[k]) == old(ValueOf(jobs[k])) && jobs[k].body == old(jobs[k].body)
      {
        assert jobs[k] in old(jobs[k].repr);
      }
    }

    /** `_record_observability_event`: deferred inside a unit, sent at once outside. */
    method Observe(observation: Observation)
      modifies `pending, `emitted
      ensures if old(pending).Some? then pending == Some(old(pending).value + [observation]) && emitted == old(emitted)
              else pending == None && emitted == old(emitted) + [observation]
    {
      if pending.Some? {
        pending := Some(pending.value + [observation]);
      } else {
        emitted := emitted + [observation];
      }
    }

    function SnapshotOf(key: string): Option<Saved>
      reads `snapshots
    {
      Lookup(snapshots, key)
    }

    ghost function Entries(): map<string, Entry>
      requires Separate()
      reads *
    {
      map key | key in jobs :: EntryOf(jobs[key], SnapshotOf(key))
    }

    method RestoreOne(key: string)
      requires key in jobs && jobs[key].Owned() && WellFiled(jobs[key]) && this !in jobs[key].repr && snapshots.Some?
      requires key in existing && key in snapshots.value ==> (jobs[key].body.Paged? <==> snapshots.value[key].SavedPaged?)
      modifies `jobs, jobs[key].repr
      ensures key !in existing ==> jobs == old(jobs) - {key} && forall o :: o in old(jobs[key].repr) ==> unchanged(o)
      ensures key in existing ==>
                && jobs == old(jobs) && jobs[key].Owned() && fresh(jobs[key].repr - old(jobs[key].repr))
                && Settled(jobs[key], old(EntryOf(jobs[key], SnapshotOf(key))), SnapshotOf(key))
    {
      hide WellFiled, EntryOf, Settled;
      if key !in existing {
        jobs := jobs - {key};
      } else if key in snapshots.value {
        RestoreJob(jobs[key], snapshots.value[key]);
      } else {
        LeftAlone(jobs[key]);
      }
    }

    /** Every object a cached job uses is filed under that job's key, and no key shares one. */
    ghost predicate Filed()
      reads *
    {
      forall key :: key in jobs ==>
        this !in jobs[key].repr && forall o :: o in jobs[key].repr ==> o in owner && owner[o] == key
    }

    /** The state of the failure branch: remaining keys are as they were, the others are settled. */
    ghost predicate Restoring()
      reads *
    {
      && snapshots.Some? && remaining <= jobs.Keys <= entries.Keys
      && (forall key :: key in jobs ==> jobs[key].Owned())
      && (forall key :: key in remaining ==> EntryOf(jobs[key], SnapshotOf(key)) == entries[key] && WellFiled(jobs[key]))
      && (forall key :: key in remaining * existing && key in snapshots.value ==>
            (jobs[key].body.Paged? <==> snapshots.value[key].SavedPaged?))
      && (forall key :: key in jobs && key !in remaining ==> Settled(jobs[key], entries[key], SnapshotOf(key)))
    }

    twostate lemma StepKeepsOthers(key: string)
      requires old(Restoring()) && key in old(remaining) && remaining == old(remaining) - {key}
      requires snapshots == old(snapshots) && existing == old(existing) && entries == old(entries)
      requires forall k :: k in jobs && k != key ==>
                 k in old(jobs) && jobs[k] == old(jobs)[k] && forall o :: o in old(jobs[k].repr) ==> unchanged(o)
      requires forall k :: k in old(jobs) && k != key ==> k in jobs
      requires key in jobs ==> jobs[key].Owned() && Settled(jobs[key], entries[key], SnapshotOf(key))
      ensures Restoring()
    {
      hide WellFiled, EntryOf, Settled;
      forall k | k in jobs && k != key
        ensures jobs[k].Owned() && jobs[k].body == old(jobs[k].body)
        ensures EntryOf(jobs[k], SnapshotOf(k)) == old(EntryOf(jobs[k], SnapshotOf(k)))
        ensures WellFiled(jobs[k]) <==> old(WellFiled(jobs[k]))
        ensures Settled(jobs[k], entries[k], SnapshotOf(k)) <==> old(Settled(jobs[k], entries[k], SnapshotOf(k)))
      {
        assert jobs[k] in old(jobs[k].repr);
      }
    }

    twostate lemma StepKeepsFiled(key: string)
      requires old(Filed()) && old(key in jobs)
      requires forall k :: k in jobs && k != key ==> k in old(jobs) && jobs[k] == old(jobs)[k] && jobs[k].repr == old(jobs[k].repr)
      requires key in jobs ==> fresh(jobs[key].repr - old(jobs[key].repr)) && jobs[key] == old(jobs)[key] && this !in jobs[key].repr
      requires owner == if key in jobs then old(owner) + map o | o in jobs[key].repr :: key else old(owner)
      ensures Filed()
    {
    }

    method RestoreStep(key: string)
      requires Restoring() && key in remaining && Filed()
      modifies `jobs, `owner, `remaining, jobs[key].repr
      ensures Restoring() && Filed() && remaining == old(remaining) - {key}
      ensures jobs == if key in existing then old(jobs) else old(jobs) - {key}
      ensures forall k :: k in jobs && k != key ==> jobs[k].repr == old(jobs[k].repr)
    {
      hide WellFiled, EntryOf, Settled, Filed, Restoring;
      ReadyToRestore(key);
      FiledApart(key);
      RestoreOne(key);
      remaining := remaining - {key};
      owner := if key in jobs then owner + map o | o in jobs[key].repr :: key else owner;
      StepKeepsOthers(key);
      StepKeepsFiled(key);
    }

    lemma ReadyToRestore(key: string)
      requires Restoring() && key in remaining
      ensures key in jobs && jobs[key].Owned() && jobs[key] in jobs[key].repr && WellFiled(jobs[key]) && snapshots.Some?
      ensures key in existing && key in snapshots.value ==> (jobs[key].body.Paged? <==> snapshots.value[key].SavedPaged?)
      ensures key in entries && entries[key] == EntryOf(jobs[key], SnapshotOf(key))
      ensures forall k :: k in jobs ==> jobs[k].Owned()
    {
    }

    lemma FiledApart(key: string)
      requires Filed() && key in jobs
      ensures forall k :: k in jobs ==> this !in jobs[k].repr
      ensures forall k :: k in jobs && k != key ==> jobs[k].repr !! jobs[key].repr
    {
    }

    ghost function Owners(): (owners: map<object, string>)
      requires Separate()
      reads *
      ensures forall key :: key in jobs ==> forall o :: o in jobs[key].repr ==> o in owners && owners[o] == key
    {
      map key, o | key in jobs && o in jobs[key].repr :: o := key
    }

    /** Writing only the bookkeeping of the failure branch leaves every job as it was. */
    twostate lemma EntriesUntouched()
      requires old(Separate()) && unchanged(`jobs) && unchanged(`snapshots)
      requires forall key :: key in jobs ==> forall o :: o in old(jobs[key].repr) && o != this ==> unchanged(o)
      ensures forall k :: k in jobs ==>
                && jobs[k].Owned() && jobs[k].body == old(jobs[k].body) && jobs[k].repr == old(jobs[k].repr)
                && EntryOf(jobs[k], SnapshotOf(k)) == old(Entries())[k] && WellFiled(jobs[k])
    {
      hide EntryOf;
      forall k | k in jobs
        ensures jobs[k].Owned() && jobs[k].body == old(jobs[k].body) && jobs[k].repr == old(jobs[k].repr)
        ensures EntryOf(jobs[k], SnapshotOf(k)) == old(EntryOf(jobs[k], SnapshotOf(k))) && WellFiled(jobs[k])
      {
        assert jobs[k] in old(jobs[k].repr);
      }
    }

    lemma CoveredKinds()
      requires Separate() && Covered()
      ensures snapshots.Some? && existing == baseline.Keys && Entries().Keys == jobs.Keys
      ensures forall key :: key in jobs ==> this !in jobs[key].repr
      ensures forall key :: key in jobs.Keys * existing && key in snapshots.value ==>
                (jobs[key].body.Paged? <==> snapshots.value[key].SavedPaged?)
    {
    }

    method StartRestoring()
      requires Separate() && Covered()
      modifies `entries, `owner, `remaining
      ensures Restoring() && Filed() && remaining == jobs.Keys && entries == old(Entries())
      ensures forall key :: key in jobs ==> jobs[key].repr == old(jobs[key].repr)
    {
      hide EntryOf, WellFiled, Settled, Entries, Owners, Separate, Covered, Collections, ValueOf, Lookup, Restoring, Filed;
      CoveredKinds();
      entries, owner, remaining := Entries(), Owners(), jobs.Keys;
      EntriesUntouched();
      NowRestoring();
      NowFiled();
    }

    lemma NowRestoring()
      requires snapshots.Some? && remaining == jobs.Keys == entries.Keys
      requires forall key :: key in jobs ==> jobs[key].Owned() && EntryOf(jobs[key], SnapshotOf(key)) == entries[key] && WellFiled(jobs[key])
      requires forall key :: key in jobs.Keys * existing && key in snapshots.value ==>
                 (jobs[key].body.Paged? <==> snapshots.value[key].SavedPaged?)
      ensures Restoring()
    {
      hide EntryOf, WellFiled, Settled;
    }

    lemma NowFiled()
      requires forall key :: key in jobs ==> this !in jobs[key].repr && forall o :: o in jobs[key].repr ==> o in owner && owner[o] == key
      ensures Filed()
    {
    }

    ghost function Writable(): (objects: set<object>)
      reads *
      ensures forall key :: key in jobs ==> jobs[key].repr <= objects
      ensures (forall key :: key in jobs ==> this !in jobs[key].repr) ==> this !in objects
    {
      set key, o | key in jobs && o in jobs[key].repr :: o
    }

    /** The failure branch: drops what was first cached inside, restores what was journaled. */
    method RestoreAll()
      requires Separate() && Covered()
      modifies `jobs, `entries, `owner, `remaining, Writable()
      ensures jobs.Keys == old(jobs.Keys) * existing && entries == old(Entries())
      ensures forall key :: key in jobs ==> jobs[key] == old(jobs)[key]
      ensures Restoring() && Filed() && remaining == {}
    {
      hide Restoring, Filed, Separate, Covered, Entries, EntryOf, Settled, WellFiled, Writable;
      CoveredKinds();
      ghost var writable := Writable();
      StartRestoring();
      var todo := jobs.Keys;
      while todo != {}
        invariant todo <= jobs.Keys <= old(jobs.Keys) && jobs.Keys == todo + (old(jobs.Keys) * existing)
        invariant Restoring() && Filed() && remaining == todo
        invariant forall key :: key in jobs ==> jobs[key] == old(jobs)[key]
        invariant forall key :: key in todo ==> jobs[key].repr <= writable
        modifies `jobs, `owner, `remaining, writable
      {
        var key :| key in todo;
        todo := todo - {key};
        RestoreStep(key);
      }
    }

    /** The `finally` block: every handle the unit bound is the manager's own again. */
    method Reset()
      requires HandlesTracked({})
      modifies `stores, `handles, `snapshots, `proxied, `pending
      ensures stores == originals && snapshots.None? && pending.None? && proxied == {}
      ensures handles.Keys == old(handles.Keys) && forall c :: c in handles ==> handles[c] == originals.persistence
    {
      var todo := proxied;
      while todo != {}
        invariant todo <= proxied && handles.Keys == old(handles.Keys)
        invariant forall c :: c in handles ==>
                    handles[c] == if c in proxied - todo then originals.persistence else old(handles)[c]
        modifies `handles
      {
        var c :| c in todo;
        handles := handles[c := originals.persistence];
        todo := todo - {c};
      }
      stores, snapshots, proxied, pending := originals, None, {}, None;
    }

    /** What coverage says about the entries the failure branch starts from. */
    ghost predicate Fit(entries: map<string, Entry>)
      reads `existing, `baseline, `handles, `snapshots
    {
      forall key :: key in entries && key in existing ==>
        && key in baseline && SavedWellFiled(baseline[key]) && CollectionsOf(entries[key].body) <= handles.Keys
        && baseline[key] == match SnapshotOf(key) { case Some(saved) => saved case None => entries[key].value }
    }

    lemma CoveredFit()
      requires Separate() && Covered()
      ensures Fit(Entries())
    {
      hide ValueOf, WellFiled, Restorable, Survivors;
    }

    /** A job never journaled, or journaled and still admitting exact restoration. */
    ghost predicate Recoverable(journal: Option<map<string, Saved>>, key: string)
      reads `entries
    {
      key in entries && (Lookup(journal, key).Some? ==> entries[key].restorable)
    }

    /** What a failure leaves: each surviving job in its own objects, and at its entry value exactly when
        it was recoverable. */
    ghost predicate Undone(journal: Option<map<string, Saved>>)
      reads *
    {
      && (forall key :: key in jobs ==>
            && key in baseline && key in entries && jobs[key].Owned() && this !in jobs[key].repr
            && Settled(jobs[key], entries[key], Lookup(journal, key))
            && (ValueOf(jobs[key]) == baseline[key] <==> Recoverable(journal, key))
            && (Recoverable(journal, key) ==> WellFiled(jobs[key]))
            && Collections(jobs[key]) <= handles.Keys)
      && (forall a, b :: a in jobs && b in jobs && a != b ==> jobs[a].repr !! jobs[b].repr)
    }

    lemma JobUndone(key: string)
      requires snapshots.Some? && Fit(entries) && key in jobs && key in existing && key in entries && jobs[key].Owned()
      requires Settled(jobs[key], entries[key], SnapshotOf(key))
      ensures ValueOf(jobs[key]) == baseline[key] <==> Recoverable(snapshots, key)
      ensures Recoverable(snapshots, key) ==> WellFiled(jobs[key])
      ensures Collections(jobs[key]) <= handles.Keys
    {
      hide ValueOf, WellFiled;
      ValueDecidesFiling(jobs[key]);
    }

    lemma AllUndone()
      requires Restoring() && Filed() && remaining == {} && Fit(entries) && jobs.Keys <= existing
      ensures Undone(snapshots)
    {
      hide ValueOf, WellFiled, Settled, Collections, Fit, Recoverable, EntryOf, Lookup;
      forall key | key in jobs
        ensures key in baseline && key in entries && jobs[key].Owned() && this !in jobs[key].repr
        ensures Settled(jobs[key], entries[key], Lookup(snapshots, key))
        ensures ValueOf(jobs[key]) == baseline[key] <==> Recoverable(snapshots, key)
        ensures Recoverable(snapshots, key) ==> WellFiled(jobs[key])
        ensures Collections(jobs[key]) <= handles.Keys
      {
        FitKnows(key);
        JobUndone(key);
      }
    }

    lemma FitKnows(key: string)
      requires Fit(entries) && key in entries && key in existing
      ensures key in baseline
    {
    }

    /** Resetting the handles touches no job. */
    twostate lemma StillUndone(journal: Option<map<string, Saved>>)
      requires old(Undone(journal)) && handles.Keys == old(handles.Keys)
      requires jobs == old(jobs) && baseline == old(baseline) && entries == old(entries)
      requires forall key :: key in jobs ==> forall o :: o in old(jobs[key].repr) ==> unchanged(o)
      ensures Undone(journal)
    {
      hide ValueOf, WellFiled, Settled;
      forall key | key in jobs
        ensures jobs[key].Owned() && jobs[key].repr == old(jobs[key].repr) && jobs[key].body == old(jobs[key].body)
        ensures ValueOf(jobs[key]) == old(ValueOf(jobs[key])) && (WellFiled(jobs[key]) <==> old(WellFiled(jobs[key])))
        ensures Settled(jobs[key], entries[key], Lookup(journal, key)) <==>
                old(Settled(jobs[key], entries[key], Lookup(journal, key)))
      {
        assert jobs[key] in old(jobs[key].repr);
      }
    }

    /** The unit fails: jobs first cached inside are gone, nothing deferred is sent, every handle is the
        manager's own again, every job cached throughout is the object it was at entry, and each is undone. */
    method Abort()
      requires InUnit()
      modifies this, Writable()
      ensures jobs.Keys == old(jobs.Keys) * old(existing) && forall key :: key in jobs ==> jobs[key] == old(jobs)[key]
      ensures forall key :: key in old(held) ==> key in jobs && jobs[key] == old(held)[key]
      ensures entries == old(Entries()) && baseline == old(baseline) && Undone(old(snapshots))
      ensures emitted == old(emitted) && stores == old(originals)
      ensures (forall key :: key in jobs ==> Recoverable(old(snapshots), key)) ==>
                Idle() && forall key :: key in jobs ==> ValueOf(jobs[key]) == baseline[key]
    {
      hide Separate, Covered, Settled, ValueOf, WellFiled, Restoring, Filed, Entries, EntryOf, Writable, Undone, Fit, Recoverable;
      ghost var journal := snapshots;
      UnitKnows();
      RestoreAll();
      AllUndone();
      UndoneApart();
      label restored:
      Reset();
      StillUndone@restored(journal);
      IdleAgain(journal);
    }

    lemma UnitKnows()
      requires InUnit()
      ensures HeldCached()
      ensures Fit(Entries()) && this !in Writable()
      ensures originals.persistence.Unbound? && originals.rules.Unbound? && originals.groups.Unbound?
    {
      CoveredFit();
    }

    lemma UndoneApart()
      requires Undone(snapshots)
      ensures forall key :: key in jobs ==> this !in jobs[key].repr
    {
    }

    lemma IdleAgain(journal: Option<map<string, Saved>>)
      requires Undone(journal) && snapshots.None? && pending.None? && proxied == {}
      requires stores.persistence.Unbound? && stores.rules.Unbound? && stores.groups.Unbound?
      requires forall c :: c in handles ==> handles[c] == stores.persistence
      ensures (forall key :: key in jobs ==> Recoverable(journal, key)) ==>
                Idle() && forall key :: key in jobs ==> ValueOf(jobs[key]) == baseline[key]
    {
      hide ValueOf, WellFiled, Settled, Recoverable, Collections;
    }

    /** The unit succeeds: the jobs keep what the body wrote, and each deferred observation is sent once, in order. */
    method Commit()
      requires InUnit()
      modifies this
      ensures Idle() && jobs == old(jobs) && stores == old(originals)
      ensures forall key :: key in jobs ==> ValueOf(jobs[key]) == old(ValueOf(jobs[key]))
      ensures emitted == old(emitted) + old(pending).value
    {
      hide Separate, Covered, ValueOf;
      UnitKnows();
      var observations := pending.value;
      Reset();
      for i := 0 to |observations|
        invariant pending.None? && emitted == old(emitted) + observations[..i]
        modifies `pending, `emitted
      {
        Observe(observations[i]);
        assert observations[..i + 1] == observations[..i] + [observations[i]];
      }
      assert observations[..|observations|] == observations;
      JobsUntouched();
    }
  }
}
