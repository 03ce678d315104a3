/**
 The `review` call of approval_service.py as a protocol: an unlocked lookup, then one locked transaction that
 looks again, checks the version, applies the review and records the decision. Calls interleave freely.
 */
module ReviewProtocol {
  import opened Prelude
  import opened Ordering

  type Version = string

  datatype Candidate = Candidate(jobId: string, version: Version, fields: map<string, string>)

  type Candidates = map<string, Candidate>

  /** What the payload hash is taken of. */
  datatype Payload = Payload(candidateId: string, jobId: Option<string>, changes: map<string, string>, expected: Option<Version>)

  /** One call; `decisionId` is the identifier it would give its decision. */
  datatype Call = Call(payload: Payload, requestKey: Option<string>, actor: string, decisionId: string)

  datatype Outcome = Outcome(decisionId: string, version: Version, details: string)

  datatype Failure = RequestConflict | NotFound | StateConflict | Refused

  datatype Answer = Committed(outcome: Outcome) | Replayed(outcome: Outcome) | Failed(failure: Failure)

  datatype Slot = Slot(requestKey: string, actor: string)

  datatype Decision = Decision(payload: Payload, outcome: Outcome)

  datatype Phase = Ready | Missed | Located(jobId: string) | Done(answer: Answer)

  /** What changed the candidates: a review, or some other writer. */
  datatype Change = Reviewed(slot: Slot, payload: Payload, jobId: string, before: Version, outcome: Outcome) | Outside(candidates: Candidates)

  datatype Applied = Applied(candidates: Candidates, version: Version, details: string)

  /** `_review_feature_in_transaction`, which may refuse. */
  type Apply = (Candidates, string, string, map<string, string>) -> Option<Applied>

  datatype State = State(candidates: Candidates, decisions: map<Slot, Decision>, phases: map<nat, Phase>, history: seq<Change>)

  datatype Action = Lookup(call: nat) | Locate(call: nat) | Transact(call: nat) | Interfere(candidates: Candidates)

  // ----- the steps -----

  function SlotOf(c: Call): Slot {
    Slot(if c.requestKey.Some? then c.requestKey.value else c.decisionId, c.actor)
  }

  /** The answer a stored decision gives a call with its request key. */
  function Recall(d: Decision, c: Call): Answer {
    if d.payload == c.payload then Replayed(d.outcome) else Failed(RequestConflict)
  }

  function AfterLookup(s: State, c: Call): Phase {
    if c.requestKey.Some? && SlotOf(c) in s.decisions then Done(Recall(s.decisions[SlotOf(c)], c)) else Missed
  }

  function AfterLocate(s: State, c: Call): Phase {
    match c.payload.jobId
    case Some(jobId) => Located(jobId)
    case None =>
      if c.payload.candidateId in s.candidates then Located(s.candidates[c.payload.candidateId].jobId)
      else Done(Failed(NotFound))
  }

  /** The locked transaction: everything it changes, or nothing and a failure. */
  function Transaction(apply: Apply, s: State, c: Call, jobId: string): (State, Answer) {
    var id := c.payload.candidateId;
    if c.requestKey.Some? && SlotOf(c) in s.decisions then (s, Recall(s.decisions[SlotOf(c)], c))
    else if id !in s.candidates || s.candidates[id].jobId != jobId then (s, Failed(NotFound))
    else if c.payload.expected.Some? && s.candidates[id].version != c.payload.expected.value then (s, Failed(StateConflict))
    else match apply(s.candidates, jobId, id, c.payload.changes)
    case None => (s, Failed(Refused))
    case Some(applied) =>
      var outcome := Outcome(c.decisionId, applied.version, applied.details);
      (s.(candidates := applied.candidates,
          decisions := s.decisions[SlotOf(c) := Decision(c.payload, outcome)],
          history := s.history + [Reviewed(SlotOf(c), c.payload, jobId, s.candidates[id].version, outcome)]), Committed(outcome))
  }

  function PhaseOf(s: State, call: nat): Phase { if call in s.phases then s.phases[call] else Ready }

  /** A step whose turn has not come leaves everything as it is. */
  function Step(apply: Apply, calls: seq<Call>, s: State, a: Action): State {
    match a
    case Interfere(candidates) => s.(candidates := candidates, history := s.history + [Outside(candidates)])
    case Lookup(k) =>
      if k < |calls| && PhaseOf(s, k).Ready? then s.(phases := s.phases[k := AfterLookup(s, calls[k])]) else s
    case Locate(k) =>
      if k < |calls| && PhaseOf(s, k).Missed? then s.(phases := s.phases[k := AfterLocate(s, calls[k])]) else s
    case Transact(k) =>
      if k < |calls| && PhaseOf(s, k).Located? then
        var (after, answer) := Transaction(apply, s, calls[k], PhaseOf(s, k).jobId);
        after.(phases := s.phases[k := Done(answer)])
      else s
  }

  function Run(apply: Apply, calls: seq<Call>, s: State, actions: seq<Action>): State
    decreases |actions|
  {
    if actions == [] then s else Run(apply, calls, Step(apply, calls, s, actions[0]), actions[1..])
  }

  function Initial(candidates: Candidates): State { State(candidates, map[], map[], []) }

  // ----- what the history says -----

  /** What one change makes of the candidates; none when a review could not have happened there. */
  function ChangeEffect(apply: Apply, candidates: Candidates, change: Change): Option<Candidates> {
    match change
    case Outside(now) => Some(now)
    case Reviewed(_, payload, jobId, before, outcome) =>
      var id := payload.candidateId;
      if id !in candidates || candidates[id].jobId != jobId || candidates[id].version != before then None
      else if payload.expected.Some? && payload.expected.value != before then None
      else match apply(candidates, jobId, id, payload.changes)
      case None => None
      case Some(applied) =>
        if outcome.version == applied.version && outcome.details == applied.details then Some(applied.candidates) else None
  }

  /** The candidates after the changes of a history, one whole change at a time. */
  function Effect(apply: Apply, candidates: Candidates, history: seq<Change>): Option<Candidates>
    decreases |history|
  {
    if history == [] then Some(candidates)
    else match Effect(apply, candidates, history[..|history| - 1])
      case None => None
      case Some(before) => ChangeEffect(apply, before, history[|history| - 1])
  }

  function SlotsOf(history: seq<Change>): seq<Slot> {
    if history == [] then []
    else
      var rest := SlotsOf(history[..|history| - 1]);
      match history[|history| - 1] case Outside(_) => rest case Reviewed(slot, _, _, _, _) => rest + [slot]
  }

  /** The row a call can point to after it finished. */
  ghost predicate Answered(s: State, c: Call, answer: Answer) {
    match answer
    case Committed(outcome) =>
      && SlotOf(c) in s.decisions && s.decisions[SlotOf(c)] == Decision(c.payload, outcome) && outcome.decisionId == c.decisionId
    case Replayed(outcome) => c.requestKey.Some? && SlotOf(c) in s.decisions && s.decisions[SlotOf(c)] == Decision(c.payload, outcome)
    case Failed(RequestConflict) => c.requestKey.Some? && SlotOf(c) in s.decisions && s.decisions[SlotOf(c)].payload != c.payload
    case Failed(_) => true
  }

  /** A row exists for exactly the reviews of the history, with their payload and outcome. */
  ghost predicate Recorded(s: State) {
    && NoRepeats(SlotsOf(s.history))
    && (forall slot :: slot in s.decisions <==> slot in SlotsOf(s.history))
    && forall change :: change in s.history && change.Reviewed? ==>
         && change.slot in s.decisions
         && s.decisions[change.slot] == Decision(change.payload, change.outcome)
  }

  ghost predicate CommittedBy(calls: seq<Call>, s: State, slot: Slot, k: nat) {
    && k < |calls| && SlotOf(calls[k]) == slot && slot in s.decisions
    && PhaseOf(s, k) == Done(Committed(s.decisions[slot].outcome))
  }

  ghost predicate AllAnswered(calls: seq<Call>, s: State) {
    forall k :: k in s.phases && k < |calls| && s.phases[k].Done? ==> Answered(s, calls[k], s.phases[k].answer)
  }

  ghost predicate AllCommitted(calls: seq<Call>, s: State) {
    forall slot :: slot in s.decisions ==> exists k :: CommittedBy(calls, s, slot, k)
  }

  ghost predicate Inv(apply: Apply, calls: seq<Call>, start: Candidates, s: State) {
    && Effect(apply, start, s.history) == Some(s.candidates)
    && Recorded(s) && AllAnswered(calls, s) && AllCommitted(calls, s)
  }

  lemma HistoryGrows(apply: Apply, start: Candidates, history: seq<Change>, change: Change)
    ensures Effect(apply, start, history + [change]) ==
            match Effect(apply, start, history) case None => None case Some(before) => ChangeEffect(apply, before, change)
    ensures SlotsOf(history + [change]) == SlotsOf(history) + (if change.Reviewed? then [change.slot] else [])
  {
    assert (history + [change])[..|history|] == history;
  }

  /** Rows are never changed or removed. */
  ghost predicate Grows(s: State, r: State) {
    && s.history <= r.history
    && forall slot :: slot in s.decisions ==> slot in r.decisions && r.decisions[slot] == s.decisions[slot]
  }

  /** The locked transaction is all or nothing, and commits only where no decision was taken yet. */
  lemma TransactionIsAtomic(apply: Apply, s: State, c: Call, jobId: string)
    requires c.requestKey.None? ==> SlotOf(c) !in s.decisions
    ensures var (r, answer) := Transaction(apply, s, c, jobId);
            && Grows(s, r) && r.phases == s.phases
            && (answer.Committed? <==> r != s)
            && (!answer.Committed? ==> r.candidates == s.candidates && r.decisions == s.decisions && r.history == s.history)
            && (answer.Committed? ==>
                 && SlotOf(c) !in s.decisions && r.decisions == s.decisions[SlotOf(c) := Decision(c.payload, answer.outcome)]
                 && |r.history| == |s.history| + 1 && r.history[|s.history|].Reviewed? && r.history[|s.history|].slot == SlotOf(c)
                 && r.history[|s.history|].payload == c.payload && r.history[|s.history|].outcome == answer.outcome
                 && ChangeEffect(apply, s.candidates, r.history[|s.history|]) == Some(r.candidates)
                 && answer.outcome.decisionId == c.decisionId)
            && Answered(r, c, answer)
  {
  }

  // ----- which answer a call gets -----

  /** The decision taken earlier under the call's request key. */
  predicate Decided(s: State, c: Call) { c.requestKey.Some? && Slot(c.requestKey.value, c.actor) in s.decisions }

  function Earlier(s: State, c: Call): Decision
    requires Decided(s, c)
  {
    s.decisions[Slot(c.requestKey.value, c.actor)]
  }

  /** The candidate of the call, in the job when one is given. */
  predicate Here(s: State, c: Call, jobId: Option<string>) {
    c.payload.candidateId in s.candidates && (jobId.Some? ==> s.candidates[c.payload.candidateId].jobId == jobId.value)
  }

  predicate Current(s: State, c: Call)
    requires Here(s, c, None)
  {
    c.payload.expected.Some? ==> c.payload.expected.value == s.candidates[c.payload.candidateId].version
  }

  function Effects(apply: Apply, s: State, c: Call): Option<Applied>
    requires Here(s, c, None)
  {
    apply(s.candidates, s.candidates[c.payload.candidateId].jobId, c.payload.candidateId, c.payload.changes)
  }

  /** What makes each answer the right one, in terms of the tables. */
  ghost predicate RightAnswer(apply: Apply, s: State, c: Call, jobId: Option<string>, answer: Answer) {
    && (answer == Failed(RequestConflict) <==> Decided(s, c) && Earlier(s, c).payload != c.payload)
    && (answer.Replayed? <==> Decided(s, c) && Earlier(s, c).payload == c.payload)
    && (answer.Replayed? ==> answer.outcome == Earlier(s, c).outcome)
    && (answer == Failed(NotFound) <==> !Decided(s, c) && !Here(s, c, jobId))
    && (answer == Failed(StateConflict) <==> !Decided(s, c) && Here(s, c, jobId) && !Current(s, c))
    && (answer == Failed(Refused) <==> !Decided(s, c) && Here(s, c, jobId) && Current(s, c) && Effects(apply, s, c).None?)
    && (answer.Committed? <==> !Decided(s, c) && Here(s, c, jobId) && Current(s, c) && Effects(apply, s, c).Some?)
    && (answer.Committed? ==>
         var applied := Effects(apply, s, c).value; answer.outcome == Outcome(c.decisionId, applied.version, applied.details))
  }

  /** The tables after a call: a committed one has its review's candidates and one more row, any other changed nothing. */
  ghost predicate RightTables(apply: Apply, s: State, c: Call, answer: Answer, r: State) {
    if answer.Committed? && Here(s, c, None) && Effects(apply, s, c).Some? then
      && r.candidates == Effects(apply, s, c).value.candidates
      && r.decisions == s.decisions[Slot(if c.requestKey.Some? then c.requestKey.value else c.decisionId, c.actor) :=
                                    Decision(c.payload, answer.outcome)]
    else r.candidates == s.candidates && r.decisions == s.decisions && r.history == s.history
  }

  /** The transaction gives each answer if and only if its own condition holds of the tables; in particular a review of a
      candidate at the version it names, which the review accepts, commits. */
  lemma TransactionAnswers(apply: Apply, s: State, c: Call, jobId: string)
    ensures var (r, answer) := Transaction(apply, s, c, jobId);
            RightAnswer(apply, s, c, Some(jobId), answer) && RightTables(apply, s, c, answer, r)
  {
  }

  /** A call whose three regions nothing comes between is answered by the tables it met, whether it names the job or only
      the candidate. */
  lemma UndisturbedCall(apply: Apply, calls: seq<Call>, s: State, k: nat)
    requires k < |calls| && PhaseOf(s, k).Ready?
    ensures var r := Run(apply, calls, s, [Lookup(k), Locate(k), Transact(k)]); var c := calls[k];
            && PhaseOf(r, k).Done? && r.phases == s.phases[k := PhaseOf(r, k)]
            && RightAnswer(apply, s, c, c.payload.jobId, PhaseOf(r, k).answer) && RightTables(apply, s, c, PhaseOf(r, k).answer, r)
  {
    var c := calls[k];
    ThreeSteps(apply, calls, s, Lookup(k), Locate(k), Transact(k));
    var a := Step(apply, calls, s, Lookup(k));
    var b := Step(apply, calls, a, Locate(k));
    SamePlaces(apply, s, b, c);
    if PhaseOf(b, k).Located? { TransactionAnswers(apply, b, c, PhaseOf(b, k).jobId); }
  }

  lemma SamePlaces(apply: Apply, s: State, r: State, c: Call)
    requires r.candidates == s.candidates && r.decisions == s.decisions && r.history == s.history
    ensures forall jobId, answer :: RightAnswer(apply, r, c, jobId, answer) == RightAnswer(apply, s, c, jobId, answer)
    ensures forall answer, t :: RightTables(apply, r, c, answer, t) == RightTables(apply, s, c, answer, t)
  {
  }

  lemma ThreeSteps(apply: Apply, calls: seq<Call>, s: State, x: Action, y: Action, z: Action)
    ensures Run(apply, calls, s, [x, y, z]) == Step(apply, calls, Step(apply, calls, Step(apply, calls, s, x), y), z)
  {
    hide Step;
    assert [x, y, z][1..] == [y, z] && [y, z][1..] == [z] && [z][1..] == [];
    var a := Step(apply, calls, s, x);
    var b := Step(apply, calls, a, y);
    assert Run(apply, calls, b, [z]) == Step(apply, calls, b, z);
    assert Run(apply, calls, a, [y, z]) == Run(apply, calls, b, [z]);
  }

  /** A call without a request key takes a slot of its own, once. */
  ghost predicate Unshared(calls: seq<Call>, s: State) {
    && (forall i, j :: 0 <= i < |calls| && 0 <= j < |calls| && i != j && calls[i].requestKey.None? ==>
          SlotOf(calls[i]) != SlotOf(calls[j]))
    && forall k :: 0 <= k < |calls| && calls[k].requestKey.None? && !PhaseOf(s, k).Done? ==> SlotOf(calls[k]) !in s.decisions
  }

  /** Finished calls stay finished and their rows stay, so what was committed stays committed. */
  lemma CommitsLast(calls: seq<Call>, s: State, r: State, slot: Slot)
    requires AllCommitted(calls, s) && slot in s.decisions && slot in r.decisions && r.decisions[slot] == s.decisions[slot]
    requires forall j :: PhaseOf(s, j).Done? ==> PhaseOf(r, j) == PhaseOf(s, j)
    ensures exists j :: CommittedBy(calls, r, slot, j)
  {
    hide PhaseOf;
    var j :| CommittedBy(calls, s, slot, j);
    assert CommittedBy(calls, r, slot, j);
  }

  lemma DonePhasesStay(s: State, r: State, k: nat, phase: Phase)
    requires r.phases == s.phases[k := phase] && !PhaseOf(s, k).Done?
    ensures forall j :: PhaseOf(s, j).Done? ==> PhaseOf(r, j) == PhaseOf(s, j)
    ensures PhaseOf(r, k) == phase && forall j :: j != k ==> PhaseOf(r, j) == PhaseOf(s, j)
  {
  }

  /** A call that moves on without touching the tables. */
  lemma PhaseKeepsInv(apply: Apply, calls: seq<Call>, start: Candidates, s: State, k: nat, phase: Phase)
    requires Inv(apply, calls, start, s) && Unshared(calls, s) && k < |calls| && !PhaseOf(s, k).Done?
    requires phase.Done? ==> Answered(s, calls[k], phase.answer)
    ensures var r := s.(phases := s.phases[k := phase]); Inv(apply, calls, start, r) && Unshared(calls, r) && Grows(s, r)
  {
    hide Effect, Answered, CommittedBy, Recorded, AllCommitted, PhaseOf, Unshared;
    var r := s.(phases := s.phases[k := phase]);
    DonePhasesStay(s, r, k, phase);
    AllCommittedLast(calls, s, r);
    RecordedIgnoresRest(s, r);
    forall j | j in r.phases && j < |calls| && r.phases[j].Done? ensures Answered(r, calls[j], r.phases[j].answer) {
      AnswersLast(s, r, calls[j], r.phases[j].answer);
    }
    UnsharedLasts(calls, s, r, k);
  }

  lemma AllCommittedLast(calls: seq<Call>, s: State, r: State)
    requires AllCommitted(calls, s) && r.decisions == s.decisions
    requires forall j :: PhaseOf(s, j).Done? ==> PhaseOf(r, j) == PhaseOf(s, j)
    ensures AllCommitted(calls, r)
  {
    hide CommittedBy, PhaseOf;
    forall slot | slot in r.decisions ensures exists j :: CommittedBy(calls, r, slot, j) { CommitsLast(calls, s, r, slot); }
  }

  lemma UnsharedLasts(calls: seq<Call>, s: State, r: State, k: nat)
    requires Unshared(calls, s) && k < |calls| && !PhaseOf(s, k).Done?
    requires (forall j :: j != k ==> PhaseOf(r, j) == PhaseOf(s, j)) && r.decisions == s.decisions
    ensures Unshared(calls, r)
  {
    hide PhaseOf;
  }

  lemma RowKeepsRecorded(s: State, slot: Slot, d: Decision, change: Change)
    requires Recorded(s) && slot !in s.decisions && change.Reviewed? && change.slot == slot
    requires d == Decision(change.payload, change.outcome)
    ensures Recorded(s.(decisions := s.decisions[slot := d], history := s.history + [change]))
  {
    assert (s.history + [change])[..|s.history|] == s.history;
    assert SlotsOf(s.history + [change]) == SlotsOf(s.history) + [slot];
  }

  /** Answers point to rows, so they survive as long as the rows do. */
  lemma AnswersLast(s: State, r: State, c: Call, answer: Answer)
    requires Grows(s, r) && Answered(s, c, answer)
    ensures Answered(r, c, answer)
  {
  }

  lemma CommitKeepsInv(apply: Apply, calls: seq<Call>, start: Candidates, s: State, k: nat, r: State, outcome: Outcome, change: Change)
    requires Inv(apply, calls, start, s) && Unshared(calls, s) && k < |calls| && !PhaseOf(s, k).Done?
    requires SlotOf(calls[k]) !in s.decisions && change.Reviewed? && change.slot == SlotOf(calls[k])
    requires change.payload == calls[k].payload && change.outcome == outcome && outcome.decisionId == calls[k].decisionId
    requires ChangeEffect(apply, s.candidates, change) == Some(r.candidates)
    requires r == State(r.candidates, s.decisions[SlotOf(calls[k]) := Decision(calls[k].payload, outcome)],
                        s.phases[k := Done(Committed(outcome))], s.history + [change])
    ensures Inv(apply, calls, start, r) && Unshared(calls, r) && Grows(s, r)
  {
    hide ChangeEffect, Recorded, Answered, Effect, CommittedBy, PhaseOf, AllCommitted, Unshared;
    HistoryGrows(apply, start, s.history, change);
    RowKeepsRecorded(s, SlotOf(calls[k]), Decision(calls[k].payload, outcome), change);
    RecordedIgnoresRest(s.(decisions := r.decisions, history := r.history), r);
    DonePhasesStay(s, r, k, Done(Committed(outcome)));
    forall j | j in r.phases && j < |calls| && r.phases[j].Done? ensures Answered(r, calls[j], r.phases[j].answer) {
      if j != k { AnswersLast(s, r, calls[j], r.phases[j].answer); } else { CommittedIsAnswered(r, calls[k], outcome); }
    }
    CommitAdds(calls, s, r, k, outcome);
  }

  lemma CommitAdds(calls: seq<Call>, s: State, r: State, k: nat, outcome: Outcome)
    requires AllCommitted(calls, s) && Unshared(calls, s) && k < |calls| && !PhaseOf(s, k).Done? && SlotOf(calls[k]) !in s.decisions
    requires r.decisions == s.decisions[SlotOf(calls[k]) := Decision(calls[k].payload, outcome)]
    requires PhaseOf(r, k) == Done(Committed(outcome)) && forall j :: j != k ==> PhaseOf(r, j) == PhaseOf(s, j)
    ensures AllCommitted(calls, r) && Unshared(calls, r)
  {
    hide PhaseOf;
    forall slot | slot in r.decisions ensures exists j :: CommittedBy(calls, r, slot, j) {
      if slot == SlotOf(calls[k]) { assert CommittedBy(calls, r, slot, k); } else { CommitsLast(calls, s, r, slot); }
    }
  }

  lemma RecordedIgnoresRest(s: State, r: State)
    requires Recorded(s) && r.decisions == s.decisions && r.history == s.history
    ensures Recorded(r)
  {
  }

  lemma CommittedIsAnswered(r: State, c: Call, outcome: Outcome)
    requires SlotOf(c) in r.decisions && r.decisions[SlotOf(c)] == Decision(c.payload, outcome) && outcome.decisionId == c.decisionId
    ensures Answered(r, c, Committed(outcome))
  {
  }

  lemma StepKeepsInv(apply: Apply, calls: seq<Call>, start: Candidates, s: State, a: Action)
    requires Inv(apply, calls, start, s) && Unshared(calls, s)
    ensures var r := Step(apply, calls, s, a); Inv(apply, calls, start, r) && Unshared(calls, r) && Grows(s, r)
  {
    hide Transaction, ChangeEffect, Recorded, Inv, Unshared, Effect;
    match a
    case Interfere(candidates) => InterfereKeepsInv(apply, calls, start, s, candidates);
    case Lookup(k) =>
      if k < |calls| && PhaseOf(s, k).Ready? { PhaseKeepsInv(apply, calls, start, s, k, AfterLookup(s, calls[k])); } else { Still(s); }
    case Locate(k) =>
      if k < |calls| && PhaseOf(s, k).Missed? { PhaseKeepsInv(apply, calls, start, s, k, AfterLocate(s, calls[k])); } else { Still(s); }
    case Transact(k) =>
      if k < |calls| && PhaseOf(s, k).Located? {
        TransactKeepsInv(apply, calls, start, s, k);
      } else {
        Still(s);
      }
  }

  lemma Still(s: State)
    ensures Grows(s, s)
  {
  }

  lemma InterfereKeepsInv(apply: Apply, calls: seq<Call>, start: Candidates, s: State, candidates: Candidates)
    requires Inv(apply, calls, start, s) && Unshared(calls, s)
    ensures var r := Step(apply, calls, s, Interfere(candidates)); Inv(apply, calls, start, r) && Unshared(calls, r) && Grows(s, r)
  {
    hide Effect, Answered, CommittedBy, Recorded, AllCommitted, PhaseOf, Unshared;
    var r := Step(apply, calls, s, Interfere(candidates));
    HistoryGrows(apply, start, s.history, Outside(candidates));
    assert ChangeEffect(apply, s.candidates, Outside(candidates)) == Some(candidates);
    OutsideRecorded(s, candidates);
    RecordedIgnoresRest(s.(history := r.history), r);
    SamePhases(s, r);
    AllCommittedLast(calls, s, r);
    forall j | j in r.phases && j < |calls| && r.phases[j].Done? ensures Answered(r, calls[j], r.phases[j].answer) {
      AnswersLast(s, r, calls[j], r.phases[j].answer);
    }
    SameUnshared(calls, s, r);
  }

  lemma SamePhases(s: State, r: State)
    requires r.phases == s.phases
    ensures forall j :: PhaseOf(r, j) == PhaseOf(s, j)
  {
  }

  lemma SameUnshared(calls: seq<Call>, s: State, r: State)
    requires Unshared(calls, s) && r.phases == s.phases && r.decisions == s.decisions
    ensures Unshared(calls, r)
  {
  }

  lemma OutsideRecorded(s: State, candidates: Candidates)
    requires Recorded(s)
    ensures Recorded(s.(history := s.history + [Outside(candidates)]))
  {
    assert (s.history + [Outside(candidates)])[..|s.history|] == s.history;
  }

  lemma TransactKeepsInv(apply: Apply, calls: seq<Call>, start: Candidates, s: State, k: nat)
    requires Inv(apply, calls, start, s) && Unshared(calls, s) && k < |calls| && PhaseOf(s, k).Located?
    ensures var r := Step(apply, calls, s, Transact(k)); Inv(apply, calls, start, r) && Unshared(calls, r) && Grows(s, r)
  {
    hide Transaction, ChangeEffect, Recorded, Inv, Effect;
    var c, jobId := calls[k], PhaseOf(s, k).jobId;
    TransactionIsAtomic(apply, s, c, jobId);
    var (m, answer) := Transaction(apply, s, c, jobId);
    if answer.Committed? {
      assert m.history == s.history + [m.history[|s.history|]];
      CommitKeepsInv(apply, calls, start, s, k, Step(apply, calls, s, Transact(k)), answer.outcome, m.history[|s.history|]);
    } else {
      PhaseKeepsInv(apply, calls, start, s, k, Done(answer));
    }
  }

  // ----- every interleaving -----

  lemma {:induction false} RunKeepsInv(apply: Apply, calls: seq<Call>, start: Candidates, s: State, actions: seq<Action>)
    requires Inv(apply, calls, start, s) && Unshared(calls, s)
    ensures var r := Run(apply, calls, s, actions); Inv(apply, calls, start, r) && Unshared(calls, r) && Grows(s, r)
    decreases |actions|
  {
    hide Inv, Unshared, Step;
    if actions == [] {
      Still(s);
    } else {
      StepKeepsInv(apply, calls, start, s, actions[0]);
      RunKeepsInv(apply, calls, start, Step(apply, calls, s, actions[0]), actions[1..]);
    }
  }

  /** The identifiers the server draws are its own. */
  ghost predicate FreshIds(calls: seq<Call>) {
    forall i, j :: 0 <= i < |calls| && 0 <= j < |calls| && i != j ==>
      && calls[i].decisionId != calls[j].decisionId
      && (calls[i].requestKey.None? ==> SlotOf(calls[i]) != SlotOf(calls[j]))
  }

  /** Over any interleaving of any calls with any other writer: the candidates are the history's effect, each step
      whole; each slot holds one decision, taken by one call, exactly when its review took effect. */
  lemma AnyInterleaving(apply: Apply, calls: seq<Call>, start: Candidates, actions: seq<Action>)
    requires FreshIds(calls)
    ensures var r := Run(apply, calls, Initial(start), actions);
            && Effect(apply, start, r.history) == Some(r.candidates)
            && NoRepeats(SlotsOf(r.history)) && (forall slot :: slot in r.decisions <==> slot in SlotsOf(r.history))
            && forall slot :: slot in r.decisions ==> exists k :: CommittedBy(calls, r, slot, k)
  {
    RunKeepsInv(apply, calls, start, Initial(start), actions);
  }

  /** Two finished calls with the same request key and actor. */
  lemma SameKeySameDecision(apply: Apply, calls: seq<Call>, start: Candidates, actions: seq<Action>, i: nat, j: nat)
    requires FreshIds(calls) && i < |calls| && j < |calls| && i != j && SlotOf(calls[i]) == SlotOf(calls[j])
    requires PhaseOf(Run(apply, calls, Initial(start), actions), i).Done? && PhaseOf(Run(apply, calls, Initial(start), actions), j).Done?
    ensures var r := Run(apply, calls, Initial(start), actions);
            var a, b := PhaseOf(r, i).answer, PhaseOf(r, j).answer;
            && !(a.Committed? && b.Committed?)
            && (!a.Failed? && !b.Failed? ==> a.outcome == b.outcome && calls[i].payload == calls[j].payload)
            && (!a.Failed? && calls[i].payload != calls[j].payload ==> b.Failed?)
            && (!a.Failed? && b == Failed(RequestConflict) ==> calls[i].payload != calls[j].payload)
  {
    RunKeepsInv(apply, calls, start, Initial(start), actions);
  }

  /** What a call of a decided key can still end with: the decision's own answer, or that the candidate is gone. */
  ghost predicate LateAnswer(d: Decision, c: Call, answer: Answer) {
    answer == Recall(d, c) || (answer == Failed(NotFound) && c.payload.jobId.None?)
  }

  predicate StepOf(a: Action, k: nat) { a == Lookup(k) || a == Locate(k) || a == Transact(k) }

  predicate Reviews(change: Change, slot: Slot) { change.Reviewed? && change.slot == slot }

  lemma LateStep(apply: Apply, calls: seq<Call>, start: Candidates, s: State, a: Action, k: nat)
    requires Inv(apply, calls, start, s) && Unshared(calls, s)
    requires k < |calls| && calls[k].requestKey.Some? && SlotOf(calls[k]) in s.decisions
    requires PhaseOf(s, k).Done? ==> LateAnswer(s.decisions[SlotOf(calls[k])], calls[k], PhaseOf(s, k).answer)
    ensures var r := Step(apply, calls, s, a); var slot := SlotOf(calls[k]);
            && slot in r.decisions && r.decisions[slot] == s.decisions[slot]
            && (PhaseOf(r, k).Done? ==> LateAnswer(r.decisions[slot], calls[k], PhaseOf(r, k).answer))
            && (StepOf(a, k) ==> r.candidates == s.candidates && r.decisions == s.decisions && r.history == s.history)
            && s.history <= r.history && forall i :: |s.history| <= i < |r.history| ==> !Reviews(r.history[i], slot)
  {
    hide ChangeEffect, Recorded, Inv, Effect, Recall;
    StepKeepsInv(apply, calls, start, s, a);
  }

  /** Once a request key is decided nothing more is reviewed under it, in any run: its row stays, and every call of it
      that finishes is replayed the decision when its payload is the same, and conflicts otherwise; only one that was
      still looking for its candidate may find it gone. */
  lemma {:induction false} DecidedStays(apply: Apply, calls: seq<Call>, start: Candidates, s: State, actions: seq<Action>, k: nat)
    requires Inv(apply, calls, start, s) && Unshared(calls, s)
    requires k < |calls| && calls[k].requestKey.Some? && SlotOf(calls[k]) in s.decisions
    requires PhaseOf(s, k).Done? ==> LateAnswer(s.decisions[SlotOf(calls[k])], calls[k], PhaseOf(s, k).answer)
    ensures var r := Run(apply, calls, s, actions); var slot := SlotOf(calls[k]);
            && slot in r.decisions && r.decisions[slot] == s.decisions[slot]
            && (PhaseOf(r, k).Done? ==> LateAnswer(r.decisions[slot], calls[k], PhaseOf(r, k).answer))
            && s.history <= r.history && forall i :: |s.history| <= i < |r.history| ==> !Reviews(r.history[i], slot)
    decreases |actions|
  {
    hide Inv, Unshared, Step, LateAnswer, PhaseOf, Reviews;
    if actions != [] {
      StepKeepsInv(apply, calls, start, s, actions[0]);
      LateStep(apply, calls, start, s, actions[0], k);
      var t := Step(apply, calls, s, actions[0]);
      DecidedStays(apply, calls, start, t, actions[1..], k);
    }
  }

  /** A decision carries the version its caller asked for, at the moment it took effect. */
  lemma {:induction false} DecidedAtExpectedVersion(apply: Apply, start: Candidates, history: seq<Change>, k: nat)
    requires Effect(apply, start, history).Some? && k < |history| && history[k].Reviewed?
    ensures Effect(apply, start, history[..k]).Some?
    ensures var now := Effect(apply, start, history[..k]).value; var payload := history[k].payload;
            && payload.candidateId in now && now[payload.candidateId].version == history[k].before
            && (payload.expected.Some? ==> payload.expected.value == now[payload.candidateId].version)
    decreases |history|
  {
    if k == |history| - 1 {
    } else {
      var earlier := history[..|history| - 1];
      assert earlier[..k] == history[..k];
      DecidedAtExpectedVersion(apply, start, earlier, k);
    }
  }

  // ----- the desk -----

  /** The tables and the calls in progress; each method is one region of `review` that runs undisturbed. */
  class ReviewDesk {
    const apply: Apply
    const calls: seq<Call>
    var candidates: Candidates
    var decisions: map<Slot, Decision>
    var phases: map<nat, Phase>
    ghost var history: seq<Change>

    constructor (apply: Apply, calls: seq<Call>, candidates: Candidates)
      ensures View() == Initial(candidates) && this.apply == apply && this.calls == calls
    {
      this.apply, this.calls, this.candidates, decisions, phases, history := apply, calls, candidates, map[], map[], [];
    }

    ghost function View(): State
      reads this
    {
      State(candidates, decisions, phases, history)
    }

    method LookUp(k: nat)
      requires k < |calls| && PhaseOf(View(), k).Ready?
      modifies `phases
      ensures View() == Step(apply, calls, old(View()), Lookup(k))
    {
      var c := calls[k];
      var phase := Missed;
      if c.requestKey.Some? && SlotOf(c) in decisions {
        var previous := decisions[SlotOf(c)];
        phase := Done(if previous.payload != c.payload then Failed(RequestConflict) else Replayed(previous.outcome));
      }
      phases := phases[k := phase];
    }

    method LocateJob(k: nat)
      requires k < |calls| && PhaseOf(View(), k).Missed?
      modifies `phases
      ensures View() == Step(apply, calls, old(View()), Locate(k))
    {
      var payload := calls[k].payload;
      if payload.jobId.Some? {
        phases := phases[k := Located(payload.jobId.value)];
      } else if payload.candidateId !in candidates {
        phases := phases[k := Done(Failed(NotFound))];
      } else {
        phases := phases[k := Located(candidates[payload.candidateId].jobId)];
      }
    }

    method TransactReview(k: nat)
      requires k < |calls| && k in phases && phases[k].Located?
      modifies this
      ensures View() == Step(apply, calls, old(View()), Transact(k))
    {
      var answer := Decide(calls[k], phases[k].jobId);
      phases := phases[k := Done(answer)];
    }

    method Decide(c: Call, jobId: string) returns (answer: Answer)
      modifies this`candidates, this`decisions, this`history
      ensures (View(), answer) == Transaction(apply, old(View()), c, jobId)
    {
      var id := c.payload.candidateId;
      if c.requestKey.Some? && SlotOf(c) in decisions {
        var previous := decisions[SlotOf(c)];
        return if previous.payload != c.payload then Failed(RequestConflict) else Replayed(previous.outcome);
      }
      if id !in candidates || candidates[id].jobId != jobId {
        return Failed(NotFound);
      }
      var before := candidates[id].version;
      if c.payload.expected.Some? && before != c.payload.expected.value {
        return Failed(StateConflict);
      }
      var applied := apply(candidates, jobId, id, c.payload.changes);
      if applied.None? {
        return Failed(Refused);
      }
      var outcome := Outcome(c.decisionId, applied.value.version, applied.value.details);
      candidates := applied.value.candidates;
      decisions := decisions[SlotOf(c) := Decision(c.payload, outcome)];
      history := history + [Reviewed(SlotOf(c), c.payload, jobId, before, outcome)];
      return Committed(outcome);
    }
  }
}
