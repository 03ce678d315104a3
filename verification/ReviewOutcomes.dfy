/** What each handler and promise callback of the submission queue makes of the entries, told from their fields. */
module ReviewOutcomes {
  import opened Prelude
  import opened Ordering
  import opened ReviewQueue

  /** Every entry but the key's stays. */
  ghost predicate OthersStay(q: Queue, r: Queue, key: string) {
    && (forall k :: k in r.states && k != key ==> k in q.states)
    && forall k :: k in q.states && k != key ==> k in r.states && r.states[k] == q.states[k]
  }

  /** Lines, places, promises and logs stay. */
  ghost predicate SameLines(q: Queue, r: Queue) {
    && r.waiting == q.waiting && r.active == q.active && r.sends == q.sends && r.settled == q.settled
    && r.submitted == q.submitted && r.started == q.started
  }

  // ----- confirming -----

  predicate HasStatus(feature: map<string, Json>, status: Json) { "status" in feature && feature["status"] == status }

  predicate ServerDecided(feature: map<string, Json>) { HasStatus(feature, "\"approved\"") || HasStatus(feature, "\"rejected\"") }

  /** The feature has every field the entry asked to change, but for the scope, as it asked for it. */
  predicate ShowsChanges(changes: map<string, Json>, feature: map<string, Json>) {
    forall field :: field in changes && field != "review_scope" ==> field in feature && feature[field] == changes[field]
  }

  predicate OtherVersion(entry: Entry, feature: map<string, Json>) {
    if "updated_at" in feature then entry.version != Some(feature["updated_at"]) else entry.version.Some?
  }

  /** What confirming the entry makes of it. */
  ghost predicate ConfirmedTo(was: Entry, feature: map<string, Json>, text: Json, now: Entry) {
    && (was.phase.Conflict? ==> now == was.(latest := Some(text)))
    && (was.phase.Failed? && ServerDecided(feature) && ShowsChanges(was.changes, feature) ==>
         now == was.(phase := Saved, verified := true, result := Some(text)))
    && (was.phase.Failed? && ServerDecided(feature) && !ShowsChanges(was.changes, feature) ==>
         now == was.(phase := Conflict, latest := Some(text)))
    && (was.phase.Failed? && !ServerDecided(feature) && OtherVersion(was, feature) ==>
         now == was.(phase := Conflict, latest := Some(text)))
    && (was.phase.Failed? && !ServerDecided(feature) && !OtherVersion(was, feature) ==> now == was)
  }

  /** Confirming an entry that failed makes it saved if the server's feature is decided and shows every change asked for,
      a conflict if it is decided otherwise or has another version, and leaves it alone otherwise; a conflict stays one
      and shows the latest feature. Any other entry, and everything else, stays. */
  lemma ConfirmOutcome(q: Queue, key: string, feature: map<string, Json>, text: Json)
    requires Core(q)
    ensures var r := Step(q, Confirm(key, feature, text));
            && SameLines(q, r) && OthersStay(q, r, key)
            && (if key in q.states && (q.states[key].phase.Failed? || q.states[key].phase.Conflict?)
                then key in r.states && ConfirmedTo(q.states[key], feature, text, r.states[key]) && r.published == r.states
                else r == q)
  {
    hide Core;
    if Editable(q, key) { ConfirmedIs(q.states[key], feature, text); }
  }

  lemma ConfirmedIs(was: Entry, feature: map<string, Json>, text: Json)
    requires was.phase.Failed? || was.phase.Conflict?
    ensures ConfirmedTo(was, feature, text, Confirmed(was, feature, text))
  {
    assert Decided(feature) <==> ServerDecided(feature);
    assert Decided(feature) ==> (SameDecision(was, feature) <==> ShowsChanges(was.changes, feature));
  }

  // ----- settling -----

  /** A settled send leaves its entry saved with the result, in conflict after a 409 and failed after any other status;
      nothing else of what was sent changes, and nothing is shown yet. */
  lemma SettleOutcome(q: Queue, key: string, outcome: Outcome)
    requires Core(q) && key in q.sends
    ensures var r := Step(q, Settle(key, outcome)); var sent := q.sends[key];
            && OthersStay(q, r, key) && key in r.states && key !in r.sends && r.settled == q.settled + 1 && r.published == q.published
            && r.sends == q.sends - {key}
            && r.waiting == q.waiting && r.active == q.active && r.submitted == q.submitted && r.started == q.started
            && match outcome
               case Delivered(result) => r.states[key] == sent.(phase := Saved, result := Some(result))
               case Rejected(status, reason, latest) =>
                 r.states[key] == sent.(phase := r.states[key].phase, error := Some(reason), latest := latest)
                 && r.states[key].phase == if status == 409 then Conflict else Phase.Failed
  {
    hide Core;
  }

  // ----- taking back and clearing -----

  /** An entry is taken back if and only if it failed or is in conflict. */
  lemma EditOutcome(q: Queue, key: string)
    requires Core(q)
    ensures var r := Step(q, EditFailed(key));
            && SameLines(q, r) && OthersStay(q, r, key)
            && (key in r.states <==> key in q.states && !q.states[key].phase.Failed? && !q.states[key].phase.Conflict?)
            && (key in r.states ==> r == q) && (key in q.states && key !in r.states ==> r.published == r.states)
  {
    hide Core;
  }

  /** Clearing removes the saved entries and no others. */
  lemma ClearOutcome(q: Queue)
    requires Core(q)
    ensures var r := Step(q, ClearSaved);
            && SameLines(q, r) && r.published == r.states
            && (forall k :: k in r.states <==> k in q.states && !q.states[k].phase.Saved?)
            && forall k :: k in r.states ==> r.states[k] == q.states[k]
  {
    hide Core;
  }

  // ----- submitting and sending -----

  /** The entry as it is sent: what was asked for, under its own request key or a new one. */
  ghost predicate AsksFor(sent: Entry, entry: Entry, uuid: string) {
    sent == entry.(phase := Queued, requestKey := if entry.requestKey == "" then uuid else entry.requestKey)
  }

  /** The entry joins the line: sent at once when a place is free, waiting behind all others otherwise. */
  ghost predicate Joined(q: Queue, r: Queue, key: string, sent: Entry) {
    && key in r.states && OthersStay(q, r, key) && r.submitted == q.submitted + [(key, sent)] && r.published == r.states && r.settled == q.settled
    && if q.active < 2
       then && r.waiting == q.waiting == [] && r.active == q.active + 1 && r.states[key] == sent.(phase := Saving)
            && r.sends == q.sends[key := sent] && r.started == q.started + [(key, sent)]
       else && r.waiting == q.waiting + [key] && r.active == q.active && r.states[key] == sent
            && r.sends == q.sends && r.started == q.started
  }

  ghost predicate Accepted(q: Queue, r: Queue, key: string, entry: Entry, uuid: string) {
    exists sent :: AsksFor(sent, entry, uuid) && Joined(q, r, key, sent)
  }

  lemma PumpStops(q: Queue)
    requires Core(q) && (q.active >= 2 || q.waiting == [])
    ensures Pump(q) == q
  {
  }

  lemma PumpOnce(q: Queue)
    requires Core(q) && q.active < 2 && q.waiting != [] && (q.active == 1 || |q.waiting| == 1)
    ensures Pump(q) == Started(q)
  {
    hide Lined, Logged, InFlight;
    StartKeepsCore(q);
    HeadWaits(q);
    assert Started(q).active == q.active + 1;
    PumpStops(Started(q));
  }

  lemma JoinsFree(q: Queue, key: string, sent: Entry)
    requires q.active < 2 && q.waiting == [] && sent.phase.Queued?
    ensures Enqueued(q, key, sent).waiting == [key] && Joined(q, Started(Enqueued(q, key, sent)), key, sent)
  {
  }

  lemma JoinsTail(q: Queue, key: string, sent: Entry)
    requires q.active >= 2
    ensures Joined(q, Enqueued(q, key, sent), key, sent)
  {
  }

  lemma JoinsLine(q: Queue, key: string, sent: Entry)
    requires Inv(q) && Accepts(q, key) && sent.phase.Queued? && sent.requestKey != ""
    ensures Core(Enqueued(q, key, sent)) && Joined(q, Pump(Enqueued(q, key, sent)), key, sent)
  {
    hide Core, Joined, Started, Pump;
    EnqueueKeepsCore(q, key, sent);
    var m := Enqueued(q, key, sent);
    if q.active < 2 {
      JoinsFree(q, key, sent);
      PumpOnce(m);
    } else {
      JoinsTail(q, key, sent);
      PumpStops(m);
    }
  }

  /** A submit is refused while the key has an entry that did not fail; otherwise the review asked for joins the line. */
  lemma SubmitOutcome(q: Queue, key: string, entry: Entry, uuid: string)
    requires Inv(q) && uuid != ""
    ensures var r := Step(q, Submit(key, entry, uuid));
            if key in q.states && !q.states[key].phase.Failed? then r == q else Accepted(q, r, key, entry, uuid)
  {
    hide Inv, Core, Joined, Pump;
    assert Core(q) by { InvIsCore(q); }
    if Accepts(q, key) {
      StampJoins(entry, uuid);
      assert AsksFor(Stamp(entry, uuid), entry, uuid);
      JoinsLine(q, key, Stamp(entry, uuid));
    }
  }

  lemma InvIsCore(q: Queue)
    requires Inv(q)
    ensures Core(q)
  {
  }

  /** A retry sends a failed entry again as it is, under the same request key, and does nothing to any other. */
  lemma RetryOutcome(q: Queue, key: string, uuid: string)
    requires Inv(q) && uuid != ""
    ensures var r := Step(q, Retry(key, uuid));
            if key in q.states && q.states[key].phase.Failed? then Accepted(q, r, key, q.states[key], uuid) else r == q
  {
    hide Inv, Core, Accepted, SubmitTo;
    assert Core(q) by { InvIsCore(q); }
    if Retryable(q, key) { SubmitOutcome(q, key, q.states[key], uuid); }
  }

  /** A place given back goes to the first in the line, and to it alone. */
  lemma FinishOutcome(q: Queue)
    requires Inv(q) && q.settled > 0
    ensures var r := Step(q, Finish);
            && r.settled == q.settled - 1 && r.published == r.states && r.submitted == q.submitted
            && (q.waiting == [] ==>
                 r.states == q.states && r.waiting == [] && r.active == q.active - 1 && r.sends == q.sends && r.started == q.started)
            && (q.waiting != [] ==>
                 var head := q.waiting[0];
                 && head in q.states && r.states == q.states[head := q.states[head].(phase := Saving)]
                 && r.waiting == q.waiting[1..] && r.active == q.active
                 && r.sends == q.sends[head := q.states[head]] && r.started == q.started + [(head, q.states[head])])
  {
    hide Lined, Logged, InFlight;
    FinishKeepsCore(q);
    var m := FinishedQueue(q);
    if q.waiting == [] { PumpStops(m); } else { HeadWaits(m); PumpOnce(m); }
  }
}
