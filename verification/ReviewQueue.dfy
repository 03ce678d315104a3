/** The client-side submission queue of app.js: at most two reviews in flight, the rest waiting in order. */
module ReviewQueue {
  import opened Prelude
  import opened Ordering

  /** The text `JSON.stringify` gives a value. */
  type Json = string

  datatype Phase = Queued | Saving | Saved | Failed | Conflict

  /** A submission. `requestKey` is empty until the first submit fills it in. */
  datatype Entry = Entry(changes: map<string, Json>, version: Option<Json>, requestKey: string, phase: Phase,
                         verified: bool, result: Option<Json>, error: Option<Json>, latest: Option<Json>)

  function InPhase(entry: Entry, phase: Phase): (r: Entry)
    ensures r.phase == phase && RequestOf(r) == RequestOf(entry)
  {
    entry.(phase := phase)
  }

  /** What a retry must not change. */
  datatype Request = Request(changes: map<string, Json>, version: Option<Json>, requestKey: string)

  function RequestOf(entry: Entry): Request { Request(entry.changes, entry.version, entry.requestKey) }

  /** How a send settles: a result, or a failure with its HTTP status. */
  datatype Outcome = Delivered(result: Json) | Rejected(status: int, reason: Json, latest: Option<Json>)

  /** `sends` are the promises not settled yet, by key, with the entry each carries; `settled` counts those that
      have settled and still have to give their place back. The two logs record submissions and sends in order. */
  datatype Queue = Queue(states: map<string, Entry>, waiting: seq<string>, active: int, published: map<string, Entry>,
                         sends: map<string, Entry>, settled: nat,
                         submitted: seq<(string, Entry)>, started: seq<(string, Entry)>)

  const EMPTY := Queue(map[], [], 0, map[], map[], 0, [], [])

  datatype Action =
    | Submit(key: string, entry: Entry, uuid: string)
    | Retry(key: string, uuid: string)
    | EditFailed(key: string)
    | Confirm(key: string, feature: map<string, Json>, text: Json)
    | ClearSaved
    | Settle(key: string, outcome: Outcome)
    | Finish

  // ----- the handlers -----

  function Publish(q: Queue): Queue { q.(published := q.states) }

  function WaitingEntries(q: Queue): seq<(string, Entry)>
    requires forall k :: k in q.waiting ==> k in q.states
  {
    seq(|q.waiting|, i requires 0 <= i < |q.waiting| => (q.waiting[i], q.states[q.waiting[i]]))
  }

  /** A key waits exactly once if its entry is queued, and not at all otherwise. */
  ghost predicate Lined(q: Queue) {
    && NoRepeats(q.waiting)
    && forall k :: k in q.waiting <==> k in q.states && q.states[k].phase.Queued?
  }

  ghost predicate InFlight(q: Queue) {
    && (forall k :: k in q.sends <==> k in q.states && q.states[k].phase.Saving?)
    && (forall k :: k in q.sends ==> q.sends[k].phase.Queued? && q.states[k] == InPhase(q.sends[k], Saving))
  }

  /** Sends leave in the order of submission. */
  ghost predicate Logged(q: Queue)
    requires Lined(q)
  {
    q.submitted == q.started + WaitingEntries(q)
  }

  /** Holds between any two statements that change the queue. */
  ghost predicate Core(q: Queue) {
    && Lined(q) && InFlight(q) && Logged(q)
    && q.active == |q.sends| + q.settled <= 2
    && forall k :: k in q.states ==> q.states[k].requestKey != ""
  }

  /** Holds after every handler. */
  ghost predicate Inv(q: Queue) {
    && Core(q)
    && (q.waiting != [] ==> q.active == 2)
    && (q.settled == 0 ==> q.published == q.states)
  }

  function StartOne(q: Queue): (r: Queue)
    requires Core(q) && q.active < 2 && q.waiting != []
    ensures Core(r)
  {
    StartKeepsCore(q);
    Started(q)
  }

  function Started(q: Queue): Queue
    requires q.waiting != [] && q.waiting[0] in q.states
  {
    var key := q.waiting[0];
    var entry := q.states[key];
    Publish(q.(waiting := q.waiting[1..], active := q.active + 1, states := q.states[key := InPhase(entry, Saving)],
               sends := q.sends[key := entry], started := q.started + [(key, entry)]))
  }

  lemma StartKeepsCore(q: Queue)
    requires Core(q) && q.active < 2 && q.waiting != []
    ensures Core(Started(q))
  {
    hide Logged, Lined, InFlight, InPhase;
    StartKeepsLine(q);
    StartKeepsFlight(q);
    StartKeepsLog(q);
  }

  lemma StartKeepsFlight(q: Queue)
    requires InFlight(q) && q.waiting != [] && q.waiting[0] in q.states && q.states[q.waiting[0]].phase.Queued?
    ensures InFlight(Started(q)) && |Started(q).sends| == |q.sends| + 1
  {
    hide InPhase;
    var r, key := Started(q), q.waiting[0];
    OneMore(q.sends, key, q.states[key]);
    forall k
      ensures k in r.sends <==> k in r.states && r.states[k].phase.Saving?
      ensures k in r.sends ==> r.sends[k].phase.Queued? && r.states[k] == InPhase(r.sends[k], Saving)
    {
      if k != key {
        assert k in r.sends <==> k in q.sends;
      }
    }
  }

  lemma OneLess(sends: map<string, Entry>, key: string)
    requires key in sends
    ensures |sends - {key}| == |sends| - 1
  {
    assert (sends - {key}).Keys == sends.Keys - {key};
  }

  lemma OneMore(sends: map<string, Entry>, key: string, entry: Entry)
    requires key !in sends
    ensures |sends[key := entry]| == |sends| + 1
  {
    assert sends[key := entry].Keys == sends.Keys + {key};
  }

  lemma StartKeepsLine(q: Queue)
    requires Lined(q) && q.waiting != []
    ensures q.waiting[0] in q.states && q.states[q.waiting[0]].phase.Queued? && Lined(Started(q))
  {
    assert q.waiting == [q.waiting[0]] + q.waiting[1..];
    assert forall k :: k in q.waiting[1..] <==> k in q.waiting && k != q.waiting[0];
  }

  lemma StartKeepsLog(q: Queue)
    requires Lined(q) && Logged(q) && q.waiting != [] && Lined(Started(q))
    ensures Logged(Started(q))
  {
    hide InFlight;
    assert WaitingEntries(q) == [(q.waiting[0], q.states[q.waiting[0]])] + WaitingEntries(Started(q));
  }

  lemma HeadWaits(q: Queue)
    requires Core(q) && q.waiting != []
    ensures q.waiting[0] in q.states && Started(q).waiting == q.waiting[1..]
  {
  }

  function Pump(q: Queue): (r: Queue)
    requires Core(q)
    ensures Core(r) && (r.waiting != [] ==> r.active == 2)
    decreases |q.waiting|
  {
    if q.active < 2 && q.waiting != [] then Pump(StartOne(q)) else q
  }

  function Stamp(entry: Entry, uuid: string): Entry {
    entry.(requestKey := if entry.requestKey == "" then uuid else entry.requestKey, phase := Queued)
  }

  predicate Accepts(q: Queue, key: string) { key !in q.states || q.states[key].phase.Failed? }

  function Enqueued(q: Queue, key: string, entry: Entry): Queue {
    Publish(q.(states := q.states[key := entry], waiting := q.waiting + [key], submitted := q.submitted + [(key, entry)]))
  }

  lemma EnqueueKeepsCore(q: Queue, key: string, entry: Entry)
    requires Core(q) && Accepts(q, key) && entry.phase.Queued? && entry.requestKey != ""
    ensures Core(Enqueued(q, key, entry))
  {
    var r := Enqueued(q, key, entry);
    assert forall k :: k in r.waiting <==> k in q.waiting || k == key;
    assert WaitingEntries(r) == WaitingEntries(q) + [(key, entry)];
  }

  function SubmitTo(q: Queue, key: string, entry: Entry, uuid: string): (r: Queue)
    requires Core(q) && uuid != ""
    ensures Core(r)
  {
    if !Accepts(q, key) then q
    else
      EnqueueKeepsCore(q, key, Stamp(entry, uuid));
      Pump(Enqueued(q, key, Stamp(entry, uuid)))
  }

  predicate Retryable(q: Queue, key: string) { key in q.states && q.states[key].phase.Failed? }

  predicate Editable(q: Queue, key: string) { key in q.states && (q.states[key].phase.Failed? || q.states[key].phase.Conflict?) }

  function Field(fields: map<string, Json>, name: string): Option<Json> {
    if name in fields then Some(fields[name]) else None
  }

  predicate Decided(feature: map<string, Json>) {
    Field(feature, "status") == Some("\"approved\"") || Field(feature, "status") == Some("\"rejected\"")
  }

  predicate SameDecision(entry: Entry, feature: map<string, Json>) {
    && Decided(feature)
    && forall field :: field in entry.changes ==>
         field == "review_scope" || Field(feature, field) == Some(entry.changes[field])
  }

  /** What `confirm` makes of an entry that failed, given the server's present feature. */
  function Confirmed(entry: Entry, feature: map<string, Json>, text: Json): Entry {
    if SameDecision(entry, feature) && !entry.phase.Conflict?
    then entry.(phase := Saved, verified := true, result := Some(text))
    else if Decided(feature) || entry.phase.Conflict? || Field(feature, "updated_at") != entry.version
    then entry.(phase := Conflict, latest := Some(text))
    else entry
  }

  function SavedKeys(q: Queue): set<string> { set k | k in q.states && q.states[k].phase.Saved? }

  function Settled(entry: Entry, outcome: Outcome): Entry {
    match outcome
    case Delivered(result) => entry.(phase := Saved, result := Some(result))
    case Rejected(status, reason, latest) =>
      entry.(phase := if status == 409 then Conflict else Failed, error := Some(reason), latest := latest)
  }

  /** A replaced or removed entry that is neither waiting nor in flight leaves the bookkeeping alone. */
  lemma QuietKeepsCore(q: Queue, states: map<string, Entry>)
    requires Core(q) && states.Keys <= q.states.Keys
    requires forall k :: k in q.states && (q.states[k].phase.Queued? || q.states[k].phase.Saving?) ==>
               k in states && states[k] == q.states[k]
    requires forall k :: k in states && !q.states[k].phase.Queued? && !q.states[k].phase.Saving? ==>
               !states[k].phase.Queued? && !states[k].phase.Saving? && states[k].requestKey != ""
    ensures Core(q.(states := states)) && Core(Publish(q.(states := states)))
  {
    var r := q.(states := states);
    assert WaitingEntries(r) == WaitingEntries(q) == WaitingEntries(Publish(r));
  }

  lemma SettleKeepsCore(q: Queue, key: string, outcome: Outcome)
    requires Core(q) && key in q.sends
    ensures Core(SettledQueue(q, key, outcome))
  {
    var r := SettledQueue(q, key, outcome);
    assert key !in q.waiting;
    OneLess(q.sends, key);
    assert WaitingEntries(r) == WaitingEntries(q);
  }

  function SettledQueue(q: Queue, key: string, outcome: Outcome): Queue
    requires key in q.sends
  {
    q.(states := q.states[key := Settled(q.sends[key], outcome)], sends := q.sends - {key}, settled := q.settled + 1)
  }

  function FinishedQueue(q: Queue): Queue
    requires q.settled > 0
  {
    Publish(q.(active := q.active - 1, settled := q.settled - 1))
  }

  lemma FinishKeepsCore(q: Queue)
    requires Core(q) && q.settled > 0
    ensures Core(FinishedQueue(q))
  {
    assert WaitingEntries(FinishedQueue(q)) == WaitingEntries(q);
  }

  predicate Enabled(q: Queue, a: Action) {
    match a
    case Settle(key, _) => key in q.sends
    case Finish => q.settled > 0
    case Submit(_, _, uuid) => uuid != ""
    case Retry(_, uuid) => uuid != ""
    case _ => true
  }

  /** One handler, run to its end. */
  function Step(q: Queue, a: Action): (r: Queue)
    requires Core(q) && Enabled(q, a)
    ensures Core(r)
  {
    match a
    case Submit(key, entry, uuid) => SubmitTo(q, key, entry, uuid)
    case Retry(key, uuid) => if Retryable(q, key) then SubmitTo(q, key, q.states[key], uuid) else q
    case EditFailed(key) =>
      if Editable(q, key) then QuietKeepsCore(q, q.states - {key}); Publish(q.(states := q.states - {key})) else q
    case Confirm(key, feature, text) =>
      if Editable(q, key) then
        var states := q.states[key := Confirmed(q.states[key], feature, text)];
        QuietKeepsCore(q, states);
        Publish(q.(states := states))
      else q
    case ClearSaved => QuietKeepsCore(q, q.states - SavedKeys(q)); Publish(q.(states := q.states - SavedKeys(q)))
    case Settle(key, outcome) => SettleKeepsCore(q, key, outcome); SettledQueue(q, key, outcome)
    case Finish => FinishKeepsCore(q); Pump(FinishedQueue(q))
  }

  /** A run of handlers; one that is not enabled when its turn comes does not happen. */
  function Run(q: Queue, actions: seq<Action>): (r: Queue)
    requires Core(q)
    ensures Core(r)
    decreases |actions|
  {
    if actions == [] then q
    else if Enabled(q, actions[0]) then Run(Step(q, actions[0]), actions[1..])
    else Run(q, actions[1..])
  }

  // ----- what every interleaving keeps -----

  lemma {:induction false} PumpPublishes(q: Queue)
    requires Core(q) && (q.settled == 0 ==> q.published == q.states)
    ensures Pump(q).settled == q.settled && (q.settled == 0 ==> Pump(q).published == Pump(q).states)
    decreases |q.waiting|
  {
    if q.active < 2 && q.waiting != [] {
      PumpPublishes(StartOne(q));
    }
  }

  lemma StepKeepsInv(q: Queue, a: Action)
    requires Inv(q) && Enabled(q, a)
    ensures Inv(Step(q, a))
  {
    hide Lined, Logged, InFlight, SubmitTo, Pump;
    match a
    case Submit(key, entry, uuid) => SubmitKeepsInv(q, key, entry, uuid);
    case Retry(key, uuid) => if Retryable(q, key) { SubmitKeepsInv(q, key, q.states[key], uuid); }
    case Settle(_, _) =>
    case Finish => FinishKeepsInv(q);
    case _ =>
  }

  lemma FinishKeepsInv(q: Queue)
    requires Inv(q) && q.settled > 0
    ensures Core(FinishedQueue(q)) && Inv(Pump(FinishedQueue(q)))
  {
    hide Lined, Logged, InFlight;
    FinishKeepsCore(q);
    PumpPublishes(FinishedQueue(q));
  }

  lemma SubmitKeepsInv(q: Queue, key: string, entry: Entry, uuid: string)
    requires Inv(q) && uuid != ""
    ensures Inv(SubmitTo(q, key, entry, uuid))
  {
    if Accepts(q, key) {
      EnqueueKeepsCore(q, key, Stamp(entry, uuid));
      PumpPublishes(Enqueued(q, key, Stamp(entry, uuid)));
    }
  }

  /** Every interleaving of handlers and promise callbacks: at most two sends in flight, each waiting key waiting
      once, waiting work only while both places are taken, and sends in submission order. */
  lemma {:induction false} RunKeepsInv(q: Queue, actions: seq<Action>)
    requires Inv(q)
    ensures Inv(Run(q, actions))
    decreases |actions|
  {
    if actions != [] {
      if Enabled(q, actions[0]) {
        StepKeepsInv(q, actions[0]);
        RunKeepsInv(Step(q, actions[0]), actions[1..]);
      } else {
        RunKeepsInv(q, actions[1..]);
      }
    }
  }

  /** From an empty queue, whatever happens. */
  lemma AnyRun(actions: seq<Action>)
    ensures var q := Run(EMPTY, actions);
            && |q.sends| <= q.active <= 2
            && (q.waiting != [] ==> q.active == 2)
            && NoRepeats(q.waiting)
            && (forall k :: k in q.waiting <==> k in q.states && q.states[k].phase.Queued?)
            && q.submitted == q.started + WaitingEntries(q)
  {
    RunKeepsInv(EMPTY, actions);
  }

  // ----- a submission stays what it was -----

  /** Between `q` and `r` the entry under `key` asked for one and the same thing, in every send that left. */
  ghost predicate Faithful(q: Queue, r: Queue, key: string) {
    && q.started <= r.started
    && (key in r.states ==> key in q.states && RequestOf(r.states[key]) == RequestOf(q.states[key]))
    && forall i :: |q.started| <= i < |r.started| && r.started[i].0 == key ==>
         key in q.states && RequestOf(r.started[i].1) == RequestOf(q.states[key])
  }

  lemma FaithfulThrough(q: Queue, m: Queue, r: Queue, key: string)
    requires Faithful(q, m, key) && Faithful(m, r, key)
    ensures Faithful(q, r, key)
  {
    forall i | |q.started| <= i < |r.started| && r.started[i].0 == key
      ensures key in q.states && RequestOf(r.started[i].1) == RequestOf(q.states[key])
    {
      if i < |m.started| {
        assert r.started[i] == m.started[i];
      }
    }
  }

  lemma {:induction false} PumpFaithful(q: Queue, key: string)
    requires Core(q)
    ensures Faithful(q, Pump(q), key)
    decreases |q.waiting|
  {
    hide Core, Lined, Logged, InFlight, Faithful, Started;
    if q.active < 2 && q.waiting != [] {
      StartFaithful(q, key);
      HeadWaits(q);
      PumpFaithful(StartOne(q), key);
      FaithfulThrough(q, StartOne(q), Pump(q), key);
    } else {
      StillFaithful(q, key);
    }
  }

  lemma StartFaithful(q: Queue, key: string)
    requires Core(q) && q.active < 2 && q.waiting != []
    ensures Faithful(q, StartOne(q), key)
  {
    hide Logged, InFlight;
    HeadWaits(q);
  }

  lemma StillFaithful(q: Queue, key: string)
    ensures Faithful(q, q, key)
  {
  }

  predicate Resubmits(a: Action, key: string) { a.Submit? && a.key == key }

  /** A stamped entry is ready to wait; one that had a request key keeps asking for the same thing. */
  lemma StampJoins(entry: Entry, uuid: string)
    requires uuid != ""
    ensures Stamp(entry, uuid).phase.Queued? && Stamp(entry, uuid).requestKey != ""
    ensures entry.requestKey != "" ==> RequestOf(Stamp(entry, uuid)) == RequestOf(entry)
  {
  }

  lemma StepFaithful(q: Queue, a: Action, key: string)
    requires Core(q) && Enabled(q, a) && !Resubmits(a, key)
    ensures Faithful(q, Step(q, a), key)
  {
    hide Pump, Lined, Logged, InFlight, Faithful, Stamp, Enqueued;
    match a
    case Submit(other, entry, uuid) =>
      StampJoins(entry, uuid);
      if Accepts(q, other) { SubmitFaithful(q, other, Stamp(entry, uuid), key); } else { StillFaithful(q, key); }
    case Retry(other, uuid) =>
      if Retryable(q, other) {
        StampJoins(q.states[other], uuid);
        SubmitFaithful(q, other, Stamp(q.states[other], uuid), key);
      } else {
        StillFaithful(q, key);
      }
    case Finish =>
      FinishKeepsCore(q);
      PumpFaithful(FinishedQueue(q), key);
      FinishFaithful(q, key);
      FaithfulThrough(q, FinishedQueue(q), Step(q, a), key);
    case _ => QuietFaithful(q, a, key);
  }

  lemma FinishFaithful(q: Queue, key: string)
    requires q.settled > 0
    ensures Faithful(q, FinishedQueue(q), key)
  {
  }

  lemma SameRequestsFaithful(q: Queue, r: Queue, key: string)
    requires r.started == q.started && (key in r.states ==> key in q.states && RequestOf(r.states[key]) == RequestOf(q.states[key]))
    ensures Faithful(q, r, key)
  {
    hide RequestOf;
  }

  lemma QuietFaithful(q: Queue, a: Action, key: string)
    requires Core(q) && Enabled(q, a) && !a.Submit? && !a.Retry? && !a.Finish?
    ensures Faithful(q, Step(q, a), key)
  {
    hide Core, Confirmed, Settled, RequestOf, Faithful, InPhase;
    if a.Settle? {
      SettleFaithful(q, a.key, a.outcome, key);
    } else {
      if a.Confirm? && Editable(q, a.key) { ConfirmKeepsRequest(q.states[a.key], a.feature, a.text); }
      SameRequestsFaithful(q, Step(q, a), key);
    }
  }

  lemma SettleFaithful(q: Queue, other: string, outcome: Outcome, key: string)
    requires Core(q) && other in q.sends
    ensures Faithful(q, SettledQueue(q, other, outcome), key)
  {
    hide Lined, Logged, Settled, Faithful;
    SettledKeepsRequest(q.sends[other], outcome);
    SameRequestsFaithful(q, SettledQueue(q, other, outcome), key);
  }

  lemma ConfirmKeepsRequest(entry: Entry, feature: map<string, Json>, text: Json)
    ensures RequestOf(Confirmed(entry, feature, text)) == RequestOf(entry)
  {
  }

  lemma SettledKeepsRequest(entry: Entry, outcome: Outcome)
    ensures RequestOf(Settled(entry, outcome)) == RequestOf(entry)
  {
  }

  lemma SubmitFaithful(q: Queue, other: string, entry: Entry, key: string)
    requires Core(q) && Accepts(q, other) && entry.phase.Queued? && entry.requestKey != ""
    requires other == key ==> key in q.states && RequestOf(entry) == RequestOf(q.states[key])
    ensures Core(Enqueued(q, other, entry)) && Faithful(q, Pump(Enqueued(q, other, entry)), key)
  {
    hide Core;
    EnqueueKeepsCore(q, other, entry);
    PumpFaithful(Enqueued(q, other, entry), key);
    FaithfulThrough(q, Enqueued(q, other, entry), Pump(Enqueued(q, other, entry)), key);
  }

  /** Until the operator submits the key anew, every send for it, first or retried, carries the same
      request key, the same changes and the same version. */
  lemma {:induction false} RunFaithful(q: Queue, actions: seq<Action>, key: string)
    requires Core(q) && forall a :: a in actions ==> !Resubmits(a, key)
    ensures Faithful(q, Run(q, actions), key)
    decreases |actions|
  {
    if actions != [] {
      if Enabled(q, actions[0]) {
        StepFaithful(q, actions[0], key);
        RunFaithful(Step(q, actions[0]), actions[1..], key);
        FaithfulThrough(q, Step(q, actions[0]), Run(q, actions), key);
      } else {
        RunFaithful(q, actions[1..], key);
      }
    }
  }

  lemma {:induction false} PumpLeavesSaved(q: Queue, key: string)
    requires Core(q) && key in q.states && q.states[key].phase.Saved?
    ensures key in Pump(q).states && Pump(q).states[key] == q.states[key]
    decreases |q.waiting|
  {
    if q.active < 2 && q.waiting != [] {
      PumpLeavesSaved(StartOne(q), key);
    }
  }

  lemma EnqueueLeavesSaved(q: Queue, other: string, entry: Entry, key: string)
    requires Core(q) && Accepts(q, other) && entry.phase.Queued? && entry.requestKey != ""
    requires key in q.states && q.states[key].phase.Saved?
    ensures Core(Enqueued(q, other, entry))
    ensures key in Pump(Enqueued(q, other, entry)).states && Pump(Enqueued(q, other, entry)).states[key] == q.states[key]
  {
    EnqueueKeepsCore(q, other, entry);
    PumpLeavesSaved(Enqueued(q, other, entry), key);
  }

  lemma StepLeavesSaved(q: Queue, a: Action, key: string)
    requires Core(q) && Enabled(q, a) && key in q.states && q.states[key].phase.Saved? && a != ClearSaved
    ensures key in Step(q, a).states && Step(q, a).states[key] == q.states[key]
  {
    hide Pump, Enqueued, Stamp, Lined, Logged, InFlight, Core;
    match a
    case Submit(other, entry, uuid) =>
      if Accepts(q, other) { StampJoins(entry, uuid); EnqueueLeavesSaved(q, other, Stamp(entry, uuid), key); }
    case Retry(other, uuid) =>
      if Retryable(q, other) { StampJoins(q.states[other], uuid); EnqueueLeavesSaved(q, other, Stamp(q.states[other], uuid), key); }
    case Finish => FinishKeepsCore(q); PumpLeavesSaved(FinishedQueue(q), key);
    case _ => QuietLeavesSaved(q, a, key);
  }

  lemma QuietLeavesSaved(q: Queue, a: Action, key: string)
    requires Core(q) && Enabled(q, a) && key in q.states && q.states[key].phase.Saved?
    requires a != ClearSaved && !a.Submit? && !a.Retry? && !a.Finish?
    ensures key in Step(q, a).states && Step(q, a).states[key] == q.states[key]
  {
    SavedIsNotSent(q, key);
    hide Core, Confirmed, Settled, InPhase, RequestOf, Step;
    match a {
      case EditFailed(other) => assert !Editable(q, key);
      case Confirm(other, feature, text) => assert !Editable(q, key);
      case Settle(other, outcome) => assert other != key;
      case _ =>
    }
    StatesAfter(q, a);
  }

  /** What a handler that sends nothing makes of the entries. */
  lemma StatesAfter(q: Queue, a: Action)
    requires Core(q) && Enabled(q, a) && !a.Submit? && !a.Retry? && !a.Finish?
    ensures Step(q, a).states ==
            match a
            case EditFailed(key) => if Editable(q, key) then q.states - {key} else q.states
            case Confirm(key, feature, text) => if Editable(q, key) then q.states[key := Confirmed(q.states[key], feature, text)] else q.states
            case Settle(key, outcome) => q.states[key := Settled(q.sends[key], outcome)]
            case _ => q.states - SavedKeys(q)
  {
    hide Core, Confirmed, Settled, InPhase;
  }

  lemma SavedIsNotSent(q: Queue, key: string)
    requires Core(q) && key in q.states && q.states[key].phase.Saved?
    ensures key !in q.sends
  {
    hide Lined, Logged, InPhase;
  }

  /** A saved review is never sent again: it stays until the operator clears the saved ones. */
  lemma {:induction false} SavedStays(q: Queue, actions: seq<Action>, key: string)
    requires Core(q) && key in q.states && q.states[key].phase.Saved? && ClearSaved !in actions
    ensures key in Run(q, actions).states && Run(q, actions).states[key] == q.states[key]
    decreases |actions|
  {
    hide Step, Core;
    if actions != [] {
      if Enabled(q, actions[0]) {
        StepLeavesSaved(q, actions[0], key);
        SavedStays(Step(q, actions[0]), actions[1..], key);
      } else {
        SavedStays(q, actions[1..], key);
      }
    }
  }

  // ----- draining -----

  function Work(q: Queue): nat { 3 * |q.waiting| + 2 * |q.sends| + q.settled }

  predicate Completes(a: Action) { a.Settle? || a.Finish? }

  lemma {:induction false} PumpAddsNoWork(q: Queue)
    requires Core(q)
    ensures Work(Pump(q)) <= Work(q)
    decreases |q.waiting|
  {
    if q.active < 2 && q.waiting != [] {
      StartKeepsFlight(q);
      PumpAddsNoWork(StartOne(q));
    }
  }

  lemma StepWork(q: Queue, a: Action)
    requires Inv(q) && Enabled(q, a) && !a.Submit? && !a.Retry?
    ensures Work(Step(q, a)) + (if Completes(a) then 1 else 0) <= Work(q)
  {
    match a
    case Settle(key, outcome) => OneLess(q.sends, key);
    case Finish => FinishKeepsCore(q); PumpAddsNoWork(FinishedQueue(q));
    case _ =>
  }

  /** The promise callbacks of a run that do happen. */
  function Completions(q: Queue, actions: seq<Action>): nat
    requires Core(q)
    decreases |actions|
  {
    if actions == [] then 0
    else if Enabled(q, actions[0])
    then (if Completes(actions[0]) then 1 else 0) + Completions(Step(q, actions[0]), actions[1..])
    else Completions(q, actions[1..])
  }

  /** Without new submits the queue drains: only so many callbacks can happen, and while any entry is queued
      or saving one of them still can. */
  lemma {:induction false} Drains(q: Queue, actions: seq<Action>)
    requires Inv(q) && forall a :: a in actions ==> !a.Submit? && !a.Retry?
    ensures Completions(q, actions) + Work(Run(q, actions)) <= Work(q)
    decreases |actions|
  {
    if actions != [] {
      if Enabled(q, actions[0]) {
        StepWork(q, actions[0]);
        StepKeepsInv(q, actions[0]);
        Drains(Step(q, actions[0]), actions[1..]);
      } else {
        Drains(q, actions[1..]);
      }
    }
  }

  lemma UnfinishedCanMove(q: Queue, key: string) returns (a: Action)
    requires Inv(q) && key in q.states && (q.states[key].phase.Queued? || q.states[key].phase.Saving?)
    ensures Completes(a) && Enabled(q, a)
  {
    if q.settled > 0 {
      a := Finish;
    } else {
      assert q.sends != map[] by {
        if key in q.waiting { assert q.active == 2; }
      }
      var k :| k in q.sends;
      a := Settle(k, Delivered(""));
    }
  }

  // ----- why an entry is where it is -----

  /** A delivery of the entry, or a decision the server showed that agrees with every change asked for but the scope. */
  predicate Saves(a: Action, key: string, entry: Entry) {
    || (a.Settle? && a.key == key && a.outcome.Delivered? && entry.result == Some(a.outcome.result))
    || (a.Confirm? && a.key == key && entry.verified && entry.result == Some(a.text) && SameDecision(entry, a.feature))
  }

  predicate Fails(a: Action, key: string, entry: Entry) {
    a.Settle? && a.key == key && a.outcome.Rejected? && a.outcome.status != 409 && entry.error == Some(a.outcome.reason)
  }

  /** The server has decided, or has a version other than the one the entry was made for. */
  predicate Differs(feature: map<string, Json>, entry: Entry) { Decided(feature) || Field(feature, "updated_at") != entry.version }

  predicate Conflicts(a: Action, key: string, entry: Entry) {
    || (a.Settle? && a.key == key && a.outcome.Rejected? && a.outcome.status == 409 && entry.error == Some(a.outcome.reason))
    || (a.Confirm? && a.key == key && Differs(a.feature, entry))
  }

  predicate ShowsDifference(a: Action, key: string, entry: Entry) { a.Confirm? && a.key == key && Differs(a.feature, entry) }

  /** An action by which the key's entry stops being the settled one it was. */
  predicate Restarts(a: Action, key: string) {
    match a
    case Submit(other, _, _) => other == key
    case Retry(other, _) => other == key
    case EditFailed(other) => other == key
    case Settle(other, _) => other == key
    case _ => false
  }

  /** The action at `i` is the last that settled the key, and nothing restarted it since. */
  ghost predicate Last(past: seq<Action>, key: string, i: nat) { i < |past| && forall j :: i < j < |past| ==> !Restarts(past[j], key) }

  ghost predicate SavedAt(past: seq<Action>, key: string, entry: Entry, i: nat) { Last(past, key, i) && Saves(past[i], key, entry) }

  ghost predicate FailedAt(past: seq<Action>, key: string, entry: Entry, i: nat) {
    Last(past, key, i) && Fails(past[i], key, entry) && forall j :: i < j < |past| ==> !ShowsDifference(past[j], key, entry)
  }

  ghost predicate ConflictAt(past: seq<Action>, key: string, entry: Entry, i: nat) { Last(past, key, i) && Conflicts(past[i], key, entry) }

  /** Each settled entry has its cause among the past actions; one that can be retried has not been seen to differ since. */
  ghost predicate Earned(past: seq<Action>, key: string, entry: Entry) {
    && (entry.phase.Saved? ==> exists i: nat :: SavedAt(past, key, entry, i))
    && (entry.phase.Failed? ==> exists i: nat :: FailedAt(past, key, entry, i))
    && (entry.phase.Conflict? ==> exists i: nat :: ConflictAt(past, key, entry, i))
  }

  ghost predicate AllEarned(past: seq<Action>, q: Queue) { forall key :: key in q.states ==> Earned(past, key, q.states[key]) }

  predicate Unsettled(entry: Entry) { entry.phase.Queued? || entry.phase.Saving? }

  /** Every entry of `r` that has settled is the one `q` has. */
  ghost predicate NothingSettles(q: Queue, r: Queue) {
    forall key :: key in r.states && !Unsettled(r.states[key]) ==> key in q.states && r.states[key] == q.states[key]
  }

  lemma {:induction false} PumpSettlesNothing(q: Queue)
    requires Core(q)
    ensures NothingSettles(q, Pump(q))
    decreases |q.waiting|
  {
    hide Lined, Logged, InFlight;
    if q.active < 2 && q.waiting != [] {
      HeadWaits(q);
      PumpSettlesNothing(StartOne(q));
    }
  }

  lemma SubmitSettlesNothing(q: Queue, key: string, entry: Entry, uuid: string)
    requires Core(q) && uuid != ""
    ensures NothingSettles(q, SubmitTo(q, key, entry, uuid))
  {
    hide Lined, Logged, InFlight, Core;
    if Accepts(q, key) {
      EnqueueKeepsCore(q, key, Stamp(entry, uuid));
      PumpSettlesNothing(Enqueued(q, key, Stamp(entry, uuid)));
    }
  }

  lemma EarnedStays(past: seq<Action>, a: Action, key: string, entry: Entry)
    requires Earned(past, key, entry) && !Restarts(a, key) && (entry.phase.Failed? ==> !ShowsDifference(a, key, entry))
    ensures Earned(past + [a], key, entry)
  {
    hide Saves, Fails, Conflicts, ShowsDifference, Restarts;
    var now := past + [a];
    if entry.phase.Saved? { var i: nat :| SavedAt(past, key, entry, i); assert SavedAt(now, key, entry, i); }
    if entry.phase.Failed? { var i: nat :| FailedAt(past, key, entry, i); assert FailedAt(now, key, entry, i); }
    if entry.phase.Conflict? { var i: nat :| ConflictAt(past, key, entry, i); assert ConflictAt(now, key, entry, i); }
  }

  lemma JustEarned(past: seq<Action>, a: Action, key: string, entry: Entry)
    requires (entry.phase.Saved? ==> Saves(a, key, entry)) && (entry.phase.Failed? ==> Fails(a, key, entry)) && (entry.phase.Conflict? ==> Conflicts(a, key, entry))
    ensures Earned(past + [a], key, entry)
  {
    hide Saves, Fails, Conflicts, ShowsDifference, Restarts;
    var now, n := past + [a], |past|;
    assert now[n] == a;
    if entry.phase.Saved? { assert SavedAt(now, key, entry, n); }
    if entry.phase.Failed? { assert FailedAt(now, key, entry, n); }
    if entry.phase.Conflict? { assert ConflictAt(now, key, entry, n); }
  }

  lemma ConfirmEarns(past: seq<Action>, a: Action, was: Entry)
    requires a.Confirm? && Earned(past, a.key, was) && (was.phase.Failed? || was.phase.Conflict?)
    ensures Earned(past + [a], a.key, Confirmed(was, a.feature, a.text))
  {
    hide SameDecision;
    var entry := Confirmed(was, a.feature, a.text);
    if was.phase.Failed? && entry != was {
      JustEarned(past, a, a.key, entry) by { ConfirmedWhy(was, a.feature, a.text); }
    } else {
      assert Earned(past, a.key, entry) by { SameCauses(past, a.key, was, entry); }
      EarnedStays(past, a, a.key, entry);
    }
  }

  lemma ConfirmedWhy(was: Entry, feature: map<string, Json>, text: Json)
    requires was.phase.Failed? && Confirmed(was, feature, text) != was
    ensures var entry := Confirmed(was, feature, text);
            && (entry.phase.Saved? ==> entry.verified && entry.result == Some(text) && SameDecision(entry, feature))
            && (entry.phase.Conflict? ==> Differs(feature, entry)) && !entry.phase.Failed?
  {
  }

  lemma SameCauses(past: seq<Action>, key: string, was: Entry, entry: Entry)
    requires Earned(past, key, was) && (entry == was || (was.phase.Conflict? && entry == was.(latest := entry.latest)))
    ensures Earned(past, key, entry)
  {
    if entry != was {
      var i: nat :| ConflictAt(past, key, was, i);
      assert ConflictAt(past, key, entry, i);
    }
  }

  /** The handler does something: it is called, and its own guard lets it through. */
  predicate Acts(q: Queue, a: Action) {
    && Enabled(q, a)
    && match a
       case Submit(key, _, _) => Accepts(q, key)
       case Retry(key, _) => Retryable(q, key)
       case EditFailed(key) => Editable(q, key)
       case Confirm(key, _, _) => Editable(q, key)
       case _ => true
  }

  lemma IdleChangesNothing(q: Queue, a: Action)
    requires Core(q) && Enabled(q, a) && !Acts(q, a)
    ensures Step(q, a) == q
  {
    hide Core;
  }

  /** The actions of a run that did something, in order. */
  function Taken(q: Queue, actions: seq<Action>): seq<Action>
    requires Core(q)
    decreases |actions|
  {
    if actions == [] then []
    else if Acts(q, actions[0]) then [actions[0]] + Taken(Step(q, actions[0]), actions[1..])
    else Taken(q, actions[1..])
  }

  lemma {:induction false} PumpKeepsUnsettled(q: Queue, key: string)
    requires Core(q) && key in q.states && Unsettled(q.states[key])
    ensures key in Pump(q).states && Unsettled(Pump(q).states[key])
    decreases |q.waiting|
  {
    hide Lined, Logged, InFlight;
    if q.active < 2 && q.waiting != [] {
      HeadWaits(q);
      PumpKeepsUnsettled(StartOne(q), key);
    }
  }

  lemma SubmitUnsettles(q: Queue, key: string, entry: Entry, uuid: string)
    requires Core(q) && uuid != "" && Accepts(q, key)
    ensures var r := SubmitTo(q, key, entry, uuid); key in r.states && Unsettled(r.states[key])
  {
    hide Lined, Logged, InFlight, Core;
    EnqueueKeepsCore(q, key, Stamp(entry, uuid));
    PumpKeepsUnsettled(Enqueued(q, key, Stamp(entry, uuid)), key);
  }

  /** What an action leaves of the settled entries it does not itself settle or confirm: it did not restart them. */
  lemma OthersUnrestarted(q: Queue, a: Action, key: string)
    requires Core(q) && Acts(q, a) && key in Step(q, a).states && !Unsettled(Step(q, a).states[key])
    requires !(a.Settle? && a.key == key) && !(a.Confirm? && a.key == key)
    ensures key in q.states && Step(q, a).states[key] == q.states[key] && !Restarts(a, key)
  {
    hide Core, SubmitTo, Confirmed, Pump, Settled;
    match a {
      case Submit(other, entry, uuid) =>
        SubmitSettlesNothing(q, other, entry, uuid);
        if other == key { SubmitUnsettles(q, key, entry, uuid); }
      case Retry(other, uuid) =>
        SubmitSettlesNothing(q, other, q.states[other], uuid);
        if other == key { SubmitUnsettles(q, key, q.states[key], uuid); }
      case Finish => FinishKeepsCore(q); PumpSettlesNothing(FinishedQueue(q));
      case _ =>
    }
  }

  lemma StepEarns(past: seq<Action>, q: Queue, a: Action)
    requires Core(q) && Acts(q, a) && AllEarned(past, q)
    ensures AllEarned(past + [a], Step(q, a))
  {
    hide Core, Earned, SubmitTo, Confirmed, Pump, Settled, Restarts;
    var r := Step(q, a);
    forall key | key in r.states ensures Earned(past + [a], key, r.states[key]) {
      if Unsettled(r.states[key]) {
        JustEarned(past, a, key, r.states[key]);
      } else if a.Settle? && a.key == key {
        SettledWhy(q.sends[key], a.outcome);
        JustEarned(past, a, key, r.states[key]);
      } else if a.Confirm? && a.key == key {
        ConfirmEarns(past, a, q.states[key]);
      } else {
        OthersUnrestarted(q, a, key);
        EarnedStays(past, a, key, r.states[key]);
      }
    }
  }

  lemma SettledWhy(sent: Entry, outcome: Outcome)
    ensures var entry := Settled(sent, outcome); var a := Settle("", outcome);
            && (entry.phase.Saved? ==> Saves(a, "", entry)) && (entry.phase.Failed? ==> Fails(a, "", entry)) && (entry.phase.Conflict? ==> Conflicts(a, "", entry))
  {
  }

  lemma {:induction false} RunEarns(past: seq<Action>, q: Queue, actions: seq<Action>)
    requires Core(q) && AllEarned(past, q)
    ensures AllEarned(past + Taken(q, actions), Run(q, actions))
    decreases |actions|
  {
    hide Core, AllEarned, Step, Acts;
    if actions == [] {
      assert past + [] == past;
    } else if Acts(q, actions[0]) {
      assert Enabled(q, actions[0]) by { ActsIsEnabled(q, actions[0]); }
      StepEarns(past, q, actions[0]);
      var t := Step(q, actions[0]);
      RunEarns(past + [actions[0]], t, actions[1..]);
      assert past + ([actions[0]] + Taken(t, actions[1..])) == past + [actions[0]] + Taken(t, actions[1..]);
    } else {
      if Enabled(q, actions[0]) { IdleChangesNothing(q, actions[0]); }
      RunEarns(past, q, actions[1..]);
    }
  }

  lemma ActsIsEnabled(q: Queue, a: Action)
    requires Acts(q, a)
    ensures Enabled(q, a)
  {
  }

  /** In every run an entry is saved only by a delivery of it or by a decision of the server that agrees with it; it can
      be retried only after a failure other than 409, and only while no confirmation showed a decision or another
      version; a conflict comes from a 409 or from such a confirmation. Each cause is an action that was taken, and
      nothing submitted, took back or settled the key since. */
  lemma PhasesAreEarned(actions: seq<Action>)
    ensures AllEarned(Taken(EMPTY, actions), Run(EMPTY, actions))
  {
    RunEarns([], EMPTY, actions);
    assert [] + Taken(EMPTY, actions) == Taken(EMPTY, actions);
  }

  /** Between `q` and `r` nothing left for the key, whose entry is in conflict and asks for what it asked. */
  ghost predicate Stuck(q: Queue, r: Queue, key: string) {
    && key in q.states && key in r.states && r.states[key].phase.Conflict? && RequestOf(r.states[key]) == RequestOf(q.states[key])
    && q.started <= r.started && forall i :: |q.started| <= i < |r.started| ==> r.started[i].0 != key
  }

  lemma StuckThrough(q: Queue, m: Queue, r: Queue, key: string)
    requires Stuck(q, m, key) && Stuck(m, r, key)
    ensures Stuck(q, r, key)
  {
    hide RequestOf;
    forall i | |q.started| <= i < |r.started| ensures r.started[i].0 != key {
      if i < |m.started| { assert r.started[i] == m.started[i]; }
    }
  }

  lemma {:induction false} PumpStuck(q: Queue, key: string)
    requires Core(q) && key in q.states && q.states[key].phase.Conflict?
    ensures Stuck(q, Pump(q), key)
    decreases |q.waiting|
  {
    hide Logged, InFlight, Stuck;
    if q.active < 2 && q.waiting != [] {
      HeadWaits(q);
      StartStuck(q, key);
      PumpStuck(StartOne(q), key);
      StuckThrough(q, StartOne(q), Pump(q), key);
    } else {
      StillStuck(q, q, key);
    }
  }

  lemma StartStuck(q: Queue, key: string)
    requires Core(q) && q.active < 2 && q.waiting != [] && key in q.states && q.states[key].phase.Conflict?
    ensures StartOne(q) == Started(q) && Stuck(q, StartOne(q), key) && key in StartOne(q).states && StartOne(q).states[key].phase.Conflict?
  {
    hide Logged, InFlight;
  }

  lemma StillStuck(q: Queue, r: Queue, key: string)
    requires key in q.states && key in r.states && r.states[key].phase.Conflict? && RequestOf(r.states[key]) == RequestOf(q.states[key])
    requires r.started == q.started
    ensures Stuck(q, r, key)
  {
  }

  lemma SubmitStuck(q: Queue, other: string, entry: Entry, uuid: string, key: string)
    requires Core(q) && uuid != "" && key in q.states && q.states[key].phase.Conflict?
    ensures Stuck(q, SubmitTo(q, other, entry, uuid), key)
  {
    hide Core, Stuck, RequestOf;
    if Accepts(q, other) {
      var m := Enqueued(q, other, Stamp(entry, uuid));
      EnqueueKeepsCore(q, other, Stamp(entry, uuid));
      StillStuck(q, m, key);
      PumpStuck(m, key);
      StuckThrough(q, m, Pump(m), key);
    } else {
      StillStuck(q, q, key);
    }
  }

  lemma StepStuck(q: Queue, a: Action, key: string)
    requires Core(q) && Enabled(q, a) && key in q.states && q.states[key].phase.Conflict? && a != EditFailed(key)
    ensures Stuck(q, Step(q, a), key)
  {
    hide Core, Stuck, Pump, SubmitTo, RequestOf, Confirmed, Settled, InPhase;
    match a
    case Submit(other, entry, uuid) => SubmitStuck(q, other, entry, uuid, key);
    case Retry(other, uuid) =>
      if Retryable(q, other) { SubmitStuck(q, other, q.states[other], uuid, key); } else { StillStuck(q, q, key); }
    case Finish =>
      FinishKeepsCore(q);
      StillStuck(q, FinishedQueue(q), key);
      PumpStuck(FinishedQueue(q), key);
      StuckThrough(q, FinishedQueue(q), Step(q, a), key);
    case _ => QuietStuck(q, a, key);
  }

  lemma QuietStuck(q: Queue, a: Action, key: string)
    requires Core(q) && Enabled(q, a) && key in q.states && q.states[key].phase.Conflict? && a != EditFailed(key)
    requires !a.Submit? && !a.Retry? && !a.Finish?
    ensures Stuck(q, Step(q, a), key)
  {
    hide Lined, Logged, Stuck, RequestOf, Confirmed, Settled, InPhase;
    if a.Confirm? && Editable(q, a.key) {
      ConfirmKeepsRequest(q.states[a.key], a.feature, a.text);
      ConflictStaysConflict(q.states[a.key], a.feature, a.text);
    }
    StillStuck(q, Step(q, a), key);
  }

  lemma ConflictStaysConflict(entry: Entry, feature: map<string, Json>, text: Json)
    ensures entry.phase.Conflict? ==> Confirmed(entry, feature, text).phase.Conflict?
  {
  }

  /** An entry in conflict is never sent again, whatever happens, until the operator takes it back for editing: it is not
      retried, submitted over, cleared or confirmed away. */
  lemma {:induction false} ConflictStays(q: Queue, actions: seq<Action>, key: string)
    requires Core(q) && key in q.states && q.states[key].phase.Conflict? && EditFailed(key) !in actions
    ensures Stuck(q, Run(q, actions), key)
    decreases |actions|
  {
    hide Core, Step, RequestOf;
    if actions == [] {
      StillStuck(q, q, key);
    } else if Enabled(q, actions[0]) {
      assert actions[0] in actions;
      StepStuck(q, actions[0], key);
      ConflictStays(Step(q, actions[0]), actions[1..], key);
      StuckThrough(q, Step(q, actions[0]), Run(q, actions), key);
    } else {
      ConflictStays(q, actions[1..], key);
    }
  }

  lemma SettleIs(q: Queue, key: string, outcome: Outcome)
    requires Inv(q) && key in q.sends
    ensures Core(q) && Enabled(q, Settle(key, outcome)) && Step(q, Settle(key, outcome)) == SettledQueue(q, key, outcome)
    ensures Inv(SettledQueue(q, key, outcome))
  {
    hide Lined, Logged, InFlight;
    StepKeepsInv(q, Settle(key, outcome));
  }

  // ----- the queue object -----

  class ReviewSubmissionQueue {
    var states: map<string, Entry>
    var waiting: seq<string>
    var active: int
    /** What `onChange` was last given. */
    var published: map<string, Entry>
    /** The closures of the promises: unsettled ones with the entry they carry, settled ones by number. */
    var sends: map<string, Entry>
    var settled: nat
    ghost var submitted: seq<(string, Entry)>
    ghost var started: seq<(string, Entry)>

    constructor ()
      ensures View() == EMPTY && Inv(View())
    {
      states, waiting, active, published, sends, settled := map[], [], 0, map[], map[], 0;
      submitted, started := [], [];
    }

    ghost function View(): Queue
      reads this
    {
      Queue(states, waiting, active, published, sends, settled, submitted, started)
    }

    method PublishStates()
      modifies `published
      ensures View() == Publish(old(View()))
    {
      published := states;
    }

    /** One round of the pump. */
    method StartNext()
      requires waiting != [] && waiting[0] in states
      modifies this
      ensures View() == Started(old(View()))
    {
      var key := waiting[0];
      var entry := states[key];
      waiting, active := waiting[1..], active + 1;
      states := states[key := InPhase(entry, Saving)];
      sends, started := sends[key := entry], started + [(key, entry)];
      PublishStates();
    }

    method PumpWaiting()
      requires Core(View())
      modifies this
      ensures View() == Pump(old(View()))
    {
      hide Core, Started;
      while active < 2 && waiting != []
        invariant Core(View()) && Pump(View()) == Pump(old(View()))
        decreases |waiting|
      {
        HeadWaits(View());
        StartNext();
      }
    }

    method SubmitEntry(key: string, entry: Entry, uuid: string) returns (accepted: bool)
      requires Inv(View()) && uuid != ""
      modifies this
      ensures accepted == old(Accepts(View(), key))
      ensures View() == Step(old(View()), Submit(key, entry, uuid)) && Inv(View())
    {
      hide Core, Started;
      StepKeepsInv(View(), Submit(key, entry, uuid));
      if key in states && !states[key].phase.Failed? {
        return false;
      }
      Join(key, Stamp(entry, uuid));
      PumpWaiting();
      return true;
    }

    method Join(key: string, entry: Entry)
      requires Core(View()) && Accepts(View(), key) && entry.phase.Queued? && entry.requestKey != ""
      modifies this
      ensures View() == Enqueued(old(View()), key, entry) && Core(View())
    {
      hide Core;
      EnqueueKeepsCore(View(), key, entry);
      states := states[key := entry];
      waiting, submitted := waiting + [key], submitted + [(key, entry)];
      PublishStates();
    }

    method RetryFailed(key: string, uuid: string) returns (accepted: bool)
      requires Inv(View()) && uuid != ""
      modifies this
      ensures accepted == old(Retryable(View(), key))
      ensures View() == Step(old(View()), Retry(key, uuid)) && Inv(View())
    {
      accepted := false;
      if key in states && states[key].phase.Failed? {
        accepted := SubmitEntry(key, states[key], uuid);
      }
    }

    method DropFailed(key: string) returns (dropped: bool)
      requires Inv(View())
      modifies this
      ensures dropped == old(Editable(View(), key))
      ensures View() == Step(old(View()), EditFailed(key)) && Inv(View())
    {
      StepKeepsInv(View(), EditFailed(key));
      if key !in states || !(states[key].phase.Failed? || states[key].phase.Conflict?) {
        return false;
      }
      states := states - {key};
      PublishStates();
      return true;
    }

    method ConfirmWith(key: string, feature: map<string, Json>, text: Json)
      requires Inv(View())
      modifies this
      ensures View() == Step(old(View()), Confirm(key, feature, text)) && Inv(View())
    {
      StepKeepsInv(View(), Confirm(key, feature, text));
      if key !in states || !(states[key].phase.Failed? || states[key].phase.Conflict?) {
        return;
      }
      states := states[key := Confirmed(states[key], feature, text)];
      PublishStates();
    }

    method DropSaved()
      requires Inv(View())
      modifies this
      ensures View() == Step(old(View()), ClearSaved) && Inv(View())
    {
      hide Core;
      StepKeepsInv(View(), ClearSaved);
      var todo := states.Keys;
      while todo != {}
        invariant todo <= old(states).Keys
        invariant states.Keys <= old(states).Keys && forall k :: k in states ==> states[k] == old(states)[k]
        invariant forall k :: k in old(states) ==> (k in states <==> k in todo || !old(states)[k].phase.Saved?)
        modifies `states
      {
        var key :| key in todo;
        if states[key].phase.Saved? {
          states := states - {key};
        }
        todo := todo - {key};
      }
      assert states == old(states) - SavedKeys(old(View()));
      PublishStates();
    }

    method HasUnfinished() returns (unfinished: bool)
      requires Inv(View())
      ensures unfinished <==> exists k :: k in states && !states[k].phase.Saved?
      ensures !unfinished ==> waiting == [] && sends == map[]
    {
      assert waiting == [] || waiting[0] in waiting;
      unfinished := exists k :: k in states && !states[k].phase.Saved?;
      if !unfinished {
        assert forall k :: k !in sends;
      }
    }

    /** The `then` callbacks of one send. */
    method OnSettled(key: string, outcome: Outcome)
      requires Inv(View()) && key in sends
      modifies this
      ensures View() == Step(old(View()), Settle(key, outcome)) && Inv(View())
    {
      SettleIs(View(), key, outcome);
      hide Core, Inv, Settled, Step, Enabled;
      var entry := sends[key];
      states := states[key := Settled(entry, outcome)];
      sends, settled := sends - {key}, settled + 1;
    }

    /** Its `finally` callback. */
    method OnFinally()
      requires Inv(View()) && settled > 0
      modifies this
      ensures View() == Step(old(View()), Finish) && Inv(View())
    {
      hide Core, Started;
      StepKeepsInv(View(), Finish);
      FinishKeepsCore(View());
      active, settled := active - 1, settled - 1;
      PublishStates();
      PumpWaiting();
    }
  }
}
