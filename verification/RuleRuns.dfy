/** Whole runs of approvals and governance over the rule store, and the chains they leave. */
module RuleRuns {
  import opened Prelude
  import opened RuleStore
  import opened RuleChains

  // ----- approvals -----

  /** An approval leaves one active rule per code, the one it wrote. */
  lemma UpsertKeepsOneActive(w: World, rules: seq<Rule>, clock: nat, f: Feature, now: nat)
    requires Lawful(w) && Sound(w, rules, clock) && clock < now && SemanticFeature(w, f) && Upsert(w, rules, f, now).Ok?
    ensures var written := Upsert(w, rules, f, now).value;
            && OneActive(written.rules) && written.rule in written.rules && written.rule.status.Active?
            && written.rule.problemCode == CodeOf(w, f)
            && (written.rule.canonicalKey == Some(SemanticKey(CodeOf(w, f))) || written.rule.approvalKey == SemanticKey(CodeOf(w, f)))
  {
    hide Created, Rewritten, Retired, ActiveMatch, SemanticFeature, IndexOf, Shaped;
    FoundByCode(w, rules, f);
    match ActiveMatch(w, rules, f) {
      case Some(e) =>
        RewrittenForm(w, rules, f, now, e);
        var k := IndexOf(rules, e);
        var r := Rewritten(w, rules, f, now, e);
        OthersApart(w, rules, clock, k);
        assert forall j :: 0 <= j < |rules| ==> rules[j] in rules;
        ReplaceKeepsOneActive(rules, k, r);
        assert rules[k := r][k] == r;
      case None =>
        RetiredTakesKey(w, rules, clock, f);
        CreatedForm(w, rules, f, now, Retired(w, rules, f));
    }
  }

  // ----- what an approved rule says -----

  /** The rule says what was approved: the description, the type in normal form, the named components and anchors, the
      identified templates, the code; and its lineage is the feature's where it brings one. */
  ghost predicate Carries(w: World, r: Rule, f: Feature) {
    && r.description == f.description && r.featureType == w.normalType(f.featureType) && w.ofFeature(f).code == Some(r.problemCode)
    && (forall x :: x in r.components <==> x in f.components && x != "")
    && (forall x :: x in r.anchors <==> x in f.anchors && x != "")
    && (forall t :: t in r.templates <==> t in f.templates && t.identity != "")
    && r.schema.V2? && r.mode.Semantic? && r.status.Active?
    && (f.lineage != map[] ==> r.lineage.Some? && r.lineage.value.fields == f.lineage)
  }

  /** The contents whose change makes a new version. */
  ghost predicate SameContents(a: Rule, b: Rule) {
    && a.description == b.description && a.featureType == b.featureType && a.components == b.components && a.anchors == b.anchors
    && a.templates == b.templates && a.lineage == b.lineage && a.signature == b.signature && a.problemCode == b.problemCode
  }

  /** `r` is the rule `e` written anew: its identity, its place in the chain, its age, its reuse figures and its review date
      stay, its version grows by one exactly when its contents changed, a lineage is kept unless another is brought. */
  ghost predicate Renews(e: Rule, r: Rule, f: Feature, now: nat) {
    && r.ruleId == e.ruleId && r.approvalKey == e.approvalKey && r.canonicalKey == e.canonicalKey && r.predecessor == e.predecessor
    && r.approvedAt == e.approvedAt && r.createdAt == e.createdAt && r.reuseCount == e.reuseCount
    && r.lastReusedAt == e.lastReusedAt && r.nextReviewAt == e.nextReviewAt && r.updatedAt == now
    && (f.lineage == map[] ==> r.lineage == e.lineage)
    && r.version == e.version + (if SameContents(e, r) then 0 else 1)
  }

  /** `r` is a rule of its own, approved now; it follows the latest retired rule of its code, if there is one. */
  ghost predicate Starts(rules: seq<Rule>, r: Rule, f: Feature, now: nat) {
    && r.approvedAt == r.createdAt == r.updatedAt == now && r.nextReviewAt == now + 30 * 24 * 3600
    && r.reuseCount == 0 && r.lastReusedAt.None? && r.version == 1
    && (r.predecessor.None? ==> forall q :: q in rules ==> q.problemCode != r.problemCode)
    && (r.predecessor.None? && f.lineage == map[] ==> r.lineage.None?)
    && (r.predecessor.Some? ==>
         && r.lineage == Some(Lineage(f.lineage, r.predecessor))
         && exists p :: LatestOf(rules, p, r.problemCode) && r.predecessor == Some(p.ruleId))
  }

  ghost predicate LatestOf(rules: seq<Rule>, p: Rule, code: Code) {
    p in rules && p.problemCode == code && forall q :: q in rules && q.problemCode == code ==> q.updatedAt <= p.updatedAt
  }

  /** The evidence as signature where no other rule has it, qualified by the rule's own key otherwise. */
  ghost predicate Signed(rules: seq<Rule>, was: Option<Rule>, r: Rule) {
    var evidence := Evidence(r.featureType, r.templates);
    r.signature == if exists q :: q in rules && Some(q) != was && q.signature == evidence then Qualified(evidence, r.approvalKey) else evidence
  }

  lemma RewrittenCarries(w: World, rules: seq<Rule>, f: Feature, now: nat, e: Rule)
    requires SemanticFeature(w, f) && e.schema.V2? && e.mode.Semantic? && e.status.Active?
    ensures var r := Rewritten(w, rules, f, now, e); Carries(w, r, f) && Renews(e, r, f, now)
    ensures (forall q :: q in rules && q.ruleId == e.ruleId ==> q == e) ==> Signed(rules, Some(e), Rewritten(w, rules, f, now, e))
  {
  }

  lemma CreatedCarries(w: World, rules: seq<Rule>, f: Feature, now: nat, p: Option<Rule>)
    requires SemanticFeature(w, f)
    requires match p case Some(q) => LatestOf(rules, q, CodeOf(w, f)) case None => forall q :: q in rules ==> q.problemCode != CodeOf(w, f)
    ensures var r := Created(w, rules, f, now, p); Carries(w, r, f) && Starts(rules, r, f, now) && Signed(rules, None, r)
  {
  }

  /** An accepted approval writes what was approved: over the active rule of its code, which keeps its identity, its age
      and its figures, or as a new rule when the code has none; all other rules stay. */
  lemma UpsertCarries(w: World, rules: seq<Rule>, clock: nat, f: Feature, now: nat)
    requires Lawful(w) && Sound(w, rules, clock) && clock < now && SemanticFeature(w, f) && Upsert(w, rules, f, now).Ok?
    ensures var written := Upsert(w, rules, f, now).value; var r := written.rule;
            && Carries(w, r, f)
            && (forall e :: e in rules && e.status.Active? && e.problemCode == r.problemCode ==>
                 && Renews(e, r, f, now) && Signed(rules, Some(e), r)
                 && exists k :: 0 <= k < |rules| && rules[k] == e && written.rules == rules[k := r])
            && ((forall e :: e in rules && e.status.Active? ==> e.problemCode != r.problemCode) ==>
                 Starts(rules, r, f, now) && Signed(rules, None, r) && written.rules == rules + [r])
  {
    hide Created, Rewritten, Retired, ActiveMatch, SemanticFeature, Shaped, Carries, Renews, Starts, Signed;
    FoundByCode(w, rules, f) by { assert forall r :: r in rules ==> Shaped(w, r); }
    match ActiveMatch(w, rules, f) {
      case Some(e) =>
        assert e.schema.V2? && e.mode.Semantic? by { ShapedIsSemantic(w, e); }
        RewrittenCarries(w, rules, f, now, e);
        RewrittenForm(w, rules, f, now, e);
        forall q | q in rules && q.ruleId == e.ruleId ensures q == e { IdDecidesRule(w, rules, clock, q, e); }
      case None =>
        CreatedCarries(w, rules, f, now, Retired(w, rules, f));
        RetiredTakesKey(w, rules, clock, f);
        CreatedForm(w, rules, f, now, Retired(w, rules, f));
    }
  }

  lemma ShapedIsSemantic(w: World, r: Rule)
    requires Shaped(w, r)
    ensures r.schema.V2? && r.mode.Semantic?
  {
  }

  /** A sound store accepts every approval that names a type and brings an identified template, and no other. */
  lemma UpsertAccepts(w: World, rules: seq<Rule>, clock: nat, f: Feature, now: nat)
    requires Lawful(w) && Base(w, rules, clock) && SemanticFeature(w, f)
    ensures Upsert(w, rules, f, now).Ok? <==> f.featureType != "" && exists t :: t in f.templates && t.identity != ""
    ensures Upsert(w, rules, f, now).Err? ==> Upsert(w, rules, f, now) == Err(NoTemplates)
  {
    hide Created, Rewritten, Retired, ActiveMatch, SemanticFeature, Shaped;
    NothingOccupies(w, rules, SemanticKey(CodeOf(w, f)), BaseSignature(w, f));
    assert TemplatePairs(f.templates) == {} <==> forall t :: t in f.templates ==> t.identity == "" by {
      assert forall t :: t in TemplatePairs(f.templates) <==> t in f.templates && t.identity != "";
    }
  }

  /** What an approval wrote is exactly what the same problem finds afterwards, if and only if its type has a name;
      otherwise the problem finds nothing any more. */
  lemma UpsertThenMatch(w: World, rules: seq<Rule>, clock: nat, f: Feature, g: Feature, now: nat)
    requires Lawful(w) && Sound(w, rules, clock) && clock < now && SemanticFeature(w, f) && Upsert(w, rules, f, now).Ok?
    requires SemanticFeature(w, g) && CodeOf(w, g) == CodeOf(w, f)
    ensures var written := Upsert(w, rules, f, now).value;
            MatchFeature(w, written.rules, g) == (if Known(w, f) then [written.rule] else []) && Carries(w, written.rule, f)
  {
    assert Carries(w, Upsert(w, rules, f, now).value.rule, f) by { UpsertCarries(w, rules, clock, f, now); }
    hide Upsert, SemanticFeature, ActiveMatch, Shaped, Known, Classify;
    UpsertKeepsOneActive(w, rules, clock, f, now);
    UpsertWrites(w, rules, clock, f, now);
    EvaluatorPassed(w, g);
    var written := Upsert(w, rules, f, now).value;
    if Known(w, f) {
      FoundByCode(w, written.rules, g);
    } else {
      OnlyBrokenMatches(w, written.rules, written.rule, g);
    }
  }

  /** Every rule an approval leaves has the writer's shape, but for a written one whose type has no name; that one the
      validator rejects. */
  lemma UpsertWrites(w: World, rules: seq<Rule>, clock: nat, f: Feature, now: nat)
    requires Lawful(w) && Base(w, rules, clock) && SemanticFeature(w, f) && Upsert(w, rules, f, now).Ok?
    ensures var written := Upsert(w, rules, f, now).value;
            && (Shaped(w, written.rule) <==> Known(w, f)) && (Classify(w, written.rule).Valid? <==> Known(w, f))
            && forall r :: r in written.rules ==> r == written.rule || Shaped(w, r)
  {
    hide Created, Rewritten, Retired, ActiveMatch, SemanticFeature, IndexOf, Shaped, Classify;
    FoundByCode(w, rules, f);
    match ActiveMatch(w, rules, f) {
      case Some(e) =>
        RewrittenForm(w, rules, f, now, e);
        assert forall j :: 0 <= j < |rules| ==> rules[j] in rules;
      case None =>
        RetiredTakesKey(w, rules, clock, f);
        CreatedForm(w, rules, f, now, Retired(w, rules, f));
    }
  }

  lemma OnlyBrokenMatches(w: World, rules: seq<Rule>, broken: Rule, g: Feature)
    requires Lawful(w) && SemanticFeature(w, g) && OneActive(rules) && broken in rules && broken.status.Active? && !Classify(w, broken).Valid?
    requires broken.problemCode == CodeOf(w, g) && forall r :: r in rules ==> r == broken || Shaped(w, r)
    ensures ActiveMatch(w, rules, g).None?
  {
    hide Shaped, SemanticFeature, Classify;
    forall r | r in rules ensures !(r.status.Active? && ExactMatch(w, r, g)) && !(r.status.Active? && CodeMatch(w, r, g)) {
      if r != broken { MatchesByCode(w, r, g); }
    }
    NothingKept(rules, (r: Rule) => r.status.Active? && ExactMatch(w, r, g));
    NothingKept(rules, (r: Rule) => r.status.Active? && CodeMatch(w, r, g));
  }

  lemma EvaluatorPassed(w: World, g: Feature)
    requires SemanticFeature(w, g)
    ensures !g.evaluatorFailed
  {
  }

  // ----- any single event -----

  /** One rule of the store has been written anew. */
  ghost predicate Replaced(rules: seq<Rule>, after: seq<Rule>, was: Rule, r: Rule) {
    exists k :: 0 <= k < |rules| && rules[k] == was && after == rules[k := r]
  }

  /** A sound store changes the status of a rule if and only if the caller names a rule and its present version; then
      that rule alone is changed, in its status, version and stamp. */
  lemma StatusChanges(w: World, rules: seq<Rule>, clock: nat, id: RuleId, status: Status, expected: nat, now: nat)
    requires Lawful(w) && Base(w, rules, clock)
    ensures var result := ChangeStatus(w, rules, id, status, expected, now);
            && (result.Ok? <==> exists r :: r in rules && r.ruleId == id && r.version == expected)
            && (result == Err(NotFound) <==> forall r :: r in rules ==> r.ruleId != id)
            && (result.Err? && result.error != NotFound ==> result.error == VersionConflict)
            && (result.Ok? ==> forall r :: r in rules && r.ruleId == id ==>
                 Replaced(rules, result.value, r, r.(status := status, version := expected + 1, updatedAt := now)))
  {
    hide Shaped, Classify, Base;
    if FindsId(rules, id) {
      var k := WhereId(rules, id);
      forall r | r in rules && r.ruleId == id ensures r == rules[k] { IdDecidesRule(w, rules, clock, r, rules[k]); }
      assert Classify(w, rules[k]).Valid? by { BaseIsShaped(w, rules, clock, rules[k]); ShapedIsValid(w, rules[k]); }
    }
  }

  lemma BaseIsShaped(w: World, rules: seq<Rule>, clock: nat, r: Rule)
    requires Base(w, rules, clock) && r in rules
    ensures Shaped(w, r)
  {
  }

  /** A reuse is counted if and only if the rule is there and active; nothing but its figures changes. */
  lemma ReuseCounts(w: World, rules: seq<Rule>, clock: nat, id: RuleId, now: nat)
    requires Lawful(w) && Base(w, rules, clock)
    ensures var result := RecordReuse(w, rules, id, now);
            && (result.Ok? <==> exists r :: r in rules && r.ruleId == id && r.status.Active?)
            && (result == Err(NotFound) <==> forall r :: r in rules ==> r.ruleId != id)
            && (result.Err? && result.error != NotFound ==> result.error == NotActive)
            && (result.Ok? ==> forall r :: r in rules && r.ruleId == id ==>
                 Replaced(rules, result.value, r, r.(reuseCount := r.reuseCount + 1, lastReusedAt := Some(now))))
  {
    hide Shaped, Classify, Base;
    if FindsId(rules, id) {
      var k := WhereId(rules, id);
      forall r | r in rules && r.ruleId == id ensures r == rules[k] { IdDecidesRule(w, rules, clock, r, rules[k]); }
      assert Classify(w, rules[k]).Valid? by { BaseIsShaped(w, rules, clock, rules[k]); ShapedIsValid(w, rules[k]); }
    }
  }

  lemma ReuseKeeps(w: World, rules: seq<Rule>, clock: nat, id: RuleId, now: nat)
    requires Lawful(w) && Sound(w, rules, clock) && clock < now && RecordReuse(w, rules, id, now).Ok?
    ensures Sound(w, RecordReuse(w, rules, id, now).value, now)
    ensures Tailed(rules) ==> Tailed(RecordReuse(w, rules, id, now).value)
  {
    hide Shaped, Classify, OneActive, Tailed, Base, Alone;
    var k := WhereId(rules, id);
    var r := rules[k].(reuseCount := rules[k].reuseCount + 1, lastReusedAt := Some(now));
    ReuseIsNew(w, rules, clock, k, r, now);
    BaseReplace(w, rules, clock, k, r, now);
    ReplaceKeepsOneActive(rules, k, r);
    ReplaceKeepsTailed(rules, k, r);
  }

  lemma ReuseIsNew(w: World, rules: seq<Rule>, clock: nat, k: nat, r: Rule, now: nat)
    requires Sound(w, rules, clock) && k < |rules| && rules[k].status.Active?
    requires r == rules[k].(reuseCount := rules[k].reuseCount + 1, lastReusedAt := Some(now))
    ensures Shaped(w, r) && Alone(rules, k)
    ensures forall j :: 0 <= j < |rules| && j != k ==> rules[j].signature != r.signature
    ensures forall j :: 0 <= j < |rules| ==> rules[j] != r
    ensures forall i, j :: 0 <= i < j < |rules| ==> rules[i] != rules[j]
  {
    hide Chained;
    OthersApart(w, rules, clock, k);
    ReuseKeepsShape(w, rules[k], r.reuseCount, now);
    assert forall j :: 0 <= j < |rules| ==> rules[j] in rules;
  }

  lemma ReuseKeepsShape(w: World, r: Rule, count: nat, now: nat)
    requires Shaped(w, r)
    ensures Shaped(w, r.(reuseCount := count, lastReusedAt := Some(now)))
  {
  }

  /** A rule written again without being activated, no earlier than before, and not itself replaced unless it
      stays as it was. */
  lemma ReplaceKeepsTailed(rules: seq<Rule>, k: nat, r: Rule)
    requires k < |rules| && SameIdentity(rules[k], r) && r.updatedAt >= rules[k].updatedAt
    requires (r.status == rules[k].status && r.updatedAt == rules[k].updatedAt) || rules[k].status.Active?
    ensures Tailed(rules) ==> Tailed(rules[k := r])
  {
    var after := rules[k := r];
    if Tailed(rules) {
      forall p, q | p in after && q in after && q.predecessor == Some(p.ruleId)
        ensures !p.status.Active? && p.updatedAt < q.updatedAt
      {
        var i :| 0 <= i < |after| && after[i] == p;
        var j :| 0 <= j < |after| && after[j] == q;
        assert rules[i] in rules && rules[j] in rules;
      }
    }
  }

  /** What a caller has to look at before an event: the guards of the branches that go wrong. */
  ghost predicate Permitted(w: World, rules: seq<Rule>, e: Event) {
    match e.action
    case Approve(f) => SemanticFeature(w, f) && (Upsert(w, rules, f, e.now).Ok? ==> Clear(w, rules, f) && Known(w, f))
    case SetStatus(id, status, expected) =>
      status.Active? && ChangeStatus(w, rules, id, status, expected, e.now).Ok? ==>
        FindsId(rules, id) && Alone(rules, WhereId(rules, id))
    case Reuse(_) => true
  }

  lemma LaterClock(w: World, rules: seq<Rule>, clock: nat, now: nat)
    requires Sound(w, rules, clock) && clock <= now
    ensures Sound(w, rules, now)
  {
    hide Shaped;
  }

  /** One event keeps the store sound if and only if it was permitted. */
  lemma StepKeepsSound(w: World, rules: seq<Rule>, clock: nat, e: Event)
    requires Lawful(w) && Sound(w, rules, clock) && clock < e.now && (e.action.Approve? ==> SemanticFeature(w, e.action.feature))
    ensures Sound(w, Step(w, rules, e), e.now) <==> Permitted(w, rules, e)
  {
    hide Upsert, ChangeStatus, RecordReuse, Clear, Known, SemanticFeature, Base, OneActive, Alone;
    LaterClock(w, rules, clock, e.now);
    match e.action
    case Approve(f) =>
      if Upsert(w, rules, f, e.now).Ok? {
        UpsertKeepsBase(w, rules, clock, f, e.now);
        UpsertKeepsOneActive(w, rules, clock, f, e.now);
      }
    case SetStatus(id, status, expected) =>
      if ChangeStatus(w, rules, id, status, expected, e.now).Ok? {
        ChangeStatusKeeps(w, rules, clock, id, status, expected, e.now);
      }
    case Reuse(id) =>
      if RecordReuse(w, rules, id, e.now).Ok? { ReuseKeeps(w, rules, clock, id, e.now); }
  }

  // ----- whole runs -----

  predicate Timed(events: seq<Event>, clock: nat) {
    events == [] || (clock < events[0].now && Timed(events[1..], events[0].now))
  }

  function EndTime(events: seq<Event>, clock: nat): nat { if events == [] then clock else EndTime(events[1..], events[0].now) }

  predicate SemanticEvents(w: World, events: seq<Event>) {
    forall e :: e in events && e.action.Approve? ==> SemanticFeature(w, e.action.feature)
  }

  function Run(w: World, rules: seq<Rule>, events: seq<Event>): seq<Rule>
    requires SemanticEvents(w, events)
    decreases |events|
  {
    if events == [] then rules
    else
      assert forall e :: e in events[1..] ==> e in events;
      Run(w, Step(w, rules, events[0]), events[1..])
  }

  ghost predicate PermittedRun(w: World, rules: seq<Rule>, events: seq<Event>)
    requires SemanticEvents(w, events)
    decreases |events|
  {
    events != [] ==>
      && Permitted(w, rules, events[0])
      && (assert forall e :: e in events[1..] ==> e in events; PermittedRun(w, Step(w, rules, events[0]), events[1..]))
  }

  /** Over every permitted run: valid rules, distinct ids, keys, signatures and stamps, sound links, and at most
      one active rule per code. */
  lemma {:induction false} RunKeepsSound(w: World, rules: seq<Rule>, clock: nat, events: seq<Event>)
    requires Lawful(w) && Sound(w, rules, clock) && SemanticEvents(w, events) && Timed(events, clock)
    requires PermittedRun(w, rules, events)
    ensures Sound(w, Run(w, rules, events), EndTime(events, clock))
    decreases |events|
  {
    hide Sound, Step, Permitted, SemanticFeature;
    if events != [] {
      assert forall e :: e in events[1..] ==> e in events;
      StepKeepsSound(w, rules, clock, events[0]);
      RunKeepsSound(w, Step(w, rules, events[0]), events[0].now, events[1..]);
    }
  }

  // ----- runs that only retire -----

  /** Governance only takes rules out of use, and approvals name a type. */
  predicate Retiring(w: World, rules: seq<Rule>, e: Event) {
    match e.action
    case Approve(f) => SemanticFeature(w, f) && Known(w, f)
    case SetStatus(id, status, _) => FindsId(rules, id) ==> rules[WhereId(rules, id)].status.Active? && !status.Active?
    case Reuse(_) => true
  }

  lemma TailedIsClear(w: World, rules: seq<Rule>, clock: nat, f: Feature)
    requires Lawful(w) && Sound(w, rules, clock) && Tailed(rules) && SemanticFeature(w, f)
    ensures Clear(w, rules, f)
  {
    hide ActiveMatch, Retired, SemanticFeature, Shaped;
    FoundByCode(w, rules, f) by { assert forall r :: r in rules ==> Shaped(w, r); }
    if ActiveMatch(w, rules, f).None? && Retired(w, rules, f).Some? {
      var p := Retired(w, rules, f).value;
      forall r | r in rules ensures r.predecessor != Some(p.ruleId) {
        if r.predecessor == Some(p.ruleId) { SuccessorHasCode(w, rules, clock, p, r); }
      }
    }
  }

  lemma UpsertKeepsTailed(w: World, rules: seq<Rule>, clock: nat, f: Feature, now: nat)
    requires Lawful(w) && Sound(w, rules, clock) && Tailed(rules) && clock < now && SemanticFeature(w, f) && Known(w, f)
    requires Upsert(w, rules, f, now).Ok?
    ensures Tailed(Upsert(w, rules, f, now).value.rules)
  {
    hide Created, Rewritten, Retired, ActiveMatch, SemanticFeature, IndexOf, Shaped, Chained, Known;
    FoundByCode(w, rules, f);
    match ActiveMatch(w, rules, f) {
      case Some(e) =>
        RewrittenForm(w, rules, f, now, e);
        ReplaceKeepsTailed(rules, IndexOf(rules, e), Rewritten(w, rules, f, now, e));
      case None =>
        RetiredTakesKey(w, rules, clock, f);
        CreatedForm(w, rules, f, now, Retired(w, rules, f));
        TailedIsClear(w, rules, clock, f);
        CreateKeepsBase(w, rules, clock, f, now);
        AppendKeepsTailed(w, rules, clock, Created(w, rules, f, now, Retired(w, rules, f)), Retired(w, rules, f), now);
    }
  }

  lemma AppendKeepsTailed(w: World, rules: seq<Rule>, clock: nat, r: Rule, p: Option<Rule>, now: nat)
    requires Base(w, rules, clock) && Base(w, rules + [r], now) && Tailed(rules) && clock < now && r.updatedAt == now
    requires match p case Some(q) => q in rules && !q.status.Active? && r.predecessor == Some(q.ruleId) case None => r.predecessor.None?
    ensures Tailed(rules + [r])
  {
    hide Shaped;
    var after := rules + [r];
    forall a, b | a in after && b in after && b.predecessor == Some(a.ruleId)
      ensures !a.status.Active? && a.updatedAt < b.updatedAt
    {
      if b in rules {
        var q :| Precedes(rules, q, b);
        IdDecidesRule(w, after, now, a, q);
      } else {
        assert p.value in after;
        IdDecidesRule(w, after, now, a, p.value);
      }
    }
  }

  lemma RetiringStep(w: World, rules: seq<Rule>, clock: nat, e: Event)
    requires Lawful(w) && Sound(w, rules, clock) && Tailed(rules) && clock < e.now && Retiring(w, rules, e)
    ensures Permitted(w, rules, e) && Tailed(Step(w, rules, e))
  {
    hide Upsert, RecordReuse, Clear, Known, SemanticFeature, Base, OneActive, Alone, Tailed;
    match e.action
    case Approve(f) =>
      TailedIsClear(w, rules, clock, f);
      if Upsert(w, rules, f, e.now).Ok? { UpsertKeepsTailed(w, rules, clock, f, e.now); }
    case SetStatus(id, status, expected) =>
      if ChangeStatus(w, rules, id, status, expected, e.now).Ok? {
        StatusKeepsTailed(w, rules, clock, id, status, expected, e.now);
      }
    case Reuse(id) =>
      if RecordReuse(w, rules, id, e.now).Ok? { ReuseKeeps(w, rules, clock, id, e.now); }
  }

  lemma StatusKeepsTailed(w: World, rules: seq<Rule>, clock: nat, id: RuleId, status: Status, expected: nat, now: nat)
    requires Base(w, rules, clock) && Tailed(rules) && clock < now && ChangeStatus(w, rules, id, status, expected, now).Ok?
    requires FindsId(rules, id) && rules[WhereId(rules, id)].status.Active? && !status.Active?
    ensures Tailed(ChangeStatus(w, rules, id, status, expected, now).value)
  {
    hide Classify, Shaped;
    var k := WhereId(rules, id);
    assert rules[k] in rules;
    ReplaceKeepsTailed(rules, k, rules[k].(status := status, version := expected + 1, updatedAt := now));
  }

  ghost predicate RetiringRun(w: World, rules: seq<Rule>, events: seq<Event>)
    requires SemanticEvents(w, events)
    decreases |events|
  {
    events != [] ==>
      && Retiring(w, rules, events[0])
      && (assert forall e :: e in events[1..] ==> e in events; RetiringRun(w, Step(w, rules, events[0]), events[1..]))
  }

  /** Approvals and retirements alone never need a look at the store: every run of them is permitted. */
  lemma {:induction false} RetiringRunIsPermitted(w: World, rules: seq<Rule>, clock: nat, events: seq<Event>)
    requires Lawful(w) && Sound(w, rules, clock) && Tailed(rules) && SemanticEvents(w, events) && Timed(events, clock)
    requires RetiringRun(w, rules, events)
    ensures PermittedRun(w, rules, events) && Tailed(Run(w, rules, events))
    decreases |events|
  {
    hide Sound, Step, Permitted, SemanticFeature, Retiring, Tailed;
    if events != [] {
      assert forall e :: e in events[1..] ==> e in events;
      RetiringStep(w, rules, clock, events[0]);
      StepKeepsSound(w, rules, clock, events[0]) by { RetiringIsSemantic(w, rules, events[0]); }
      RetiringRunIsPermitted(w, Step(w, rules, events[0]), events[0].now, events[1..]);
    }
  }

  lemma RetiringIsSemantic(w: World, rules: seq<Rule>, e: Event)
    requires Retiring(w, rules, e)
    ensures e.action.Approve? ==> SemanticFeature(w, e.action.feature)
  {
  }

  // ----- chains -----

  /** From the first rule of the code down to `r`. */
  ghost function Chain(w: World, rules: seq<Rule>, clock: nat, r: Rule): (chain: seq<Rule>)
    requires Base(w, rules, clock) && r in rules
    ensures chain != [] && chain[|chain| - 1] == r && (|chain| == 1 <==> r.predecessor.None?)
    decreases r.createdAt
  {
    if r.predecessor.None? then [r]
    else
      var p :| Precedes(rules, p, r);
      Chain(w, rules, clock, p) + [r]
  }

  /** Each rule of the list but the first replaced the one before it, and all are of one code. */
  ghost predicate Descends(rules: seq<Rule>, chain: seq<Rule>, code: Code) {
    && chain != [] && chain[0].predecessor.None?
    && (forall i :: 0 <= i < |chain| ==> chain[i] in rules && chain[i].problemCode == code)
    && forall i :: 0 <= i < |chain| - 1 ==>
         chain[i + 1].predecessor == Some(chain[i].ruleId) && chain[i].createdAt < chain[i + 1].createdAt
  }

  lemma OneFurther(rules: seq<Rule>, chain: seq<Rule>, r: Rule)
    requires r in rules && Descends(rules, chain, r.problemCode) && Precedes(rules, chain[|chain| - 1], r)
    ensures Descends(rules, chain + [r], r.problemCode)
  {
  }

  /** Following predecessors from any rule ends at the code's first rule, through older rules of the same code. */
  lemma {:induction false} ChainDescends(w: World, rules: seq<Rule>, clock: nat, r: Rule)
    requires Base(w, rules, clock) && r in rules
    ensures Descends(rules, Chain(w, rules, clock, r), r.problemCode)
    decreases r.createdAt
  {
    hide Shaped, Descends, Base;
    if r.predecessor.Some? {
      var p := ChainStep(w, rules, clock, r);
      ChainDescends(w, rules, clock, p);
      OneFurther(rules, Chain(w, rules, clock, p), r);
    } else {
      OnlyRule(w, rules, clock, r);
    }
  }

  lemma ChainStep(w: World, rules: seq<Rule>, clock: nat, r: Rule) returns (p: Rule)
    requires Base(w, rules, clock) && r in rules && r.predecessor.Some?
    ensures Precedes(rules, p, r) && p in rules && Chain(w, rules, clock, r) == Chain(w, rules, clock, p) + [r]
  {
    hide Shaped;
    p :| Precedes(rules, p, r) && Chain(w, rules, clock, r) == Chain(w, rules, clock, p) + [r];
  }

  lemma OnlyRule(w: World, rules: seq<Rule>, clock: nat, r: Rule)
    requires Base(w, rules, clock) && r in rules && r.predecessor.None?
    ensures Descends(rules, Chain(w, rules, clock, r), r.problemCode)
  {
    hide Shaped, Base;
    assert Chain(w, rules, clock, r) == [r];
  }

  /** The rules of one code form one chain: of any two, one descends from the other. */
  lemma {:induction false} OneChain(w: World, rules: seq<Rule>, clock: nat, a: Rule, b: Rule)
    requires Base(w, rules, clock) && a in rules && b in rules && a.problemCode == b.problemCode
    requires |Chain(w, rules, clock, a)| <= |Chain(w, rules, clock, b)|
    ensures Chain(w, rules, clock, a) <= Chain(w, rules, clock, b)
    decreases b.createdAt
  {
    hide Shaped, Base, Chained;
    var x, y := Chain(w, rules, clock, a), Chain(w, rules, clock, b);
    RulesAreChained(w, rules, clock);
    if |x| == 1 && |y| == 1 {
      SamePlace(w, rules, clock, a, b);
    } else {
      var q := ChainStep(w, rules, clock, b);
      if |x| < |y| {
        OneChain(w, rules, clock, a, q);
      } else {
        var p := ChainStep(w, rules, clock, a);
        OneChain(w, rules, clock, p, q);
        assert Chain(w, rules, clock, p) == Chain(w, rules, clock, q);
        SamePlace(w, rules, clock, a, b);
      }
    }
  }

  lemma RulesAreChained(w: World, rules: seq<Rule>, clock: nat)
    requires Base(w, rules, clock)
    ensures forall r :: r in rules ==> Chained(r)
  {
    forall r | r in rules ensures Chained(r) { ShapedIsChained(w, r); }
  }

  lemma ShapedIsChained(w: World, r: Rule)
    requires Shaped(w, r)
    ensures Chained(r)
  {
  }

  lemma SamePlace(w: World, rules: seq<Rule>, clock: nat, a: Rule, b: Rule)
    requires Base(w, rules, clock) && a in rules && b in rules && Chained(a) && Chained(b)
    requires a.problemCode == b.problemCode && a.predecessor == b.predecessor
    ensures a == b
  {
    hide Shaped;
    KeyDecidesPlace(a, b);
    IdDecidesRule(w, rules, clock, a, b);
  }

  // ----- the case that goes wrong -----

  /** When the guard fails the approval writes a second rule under an identity already in the store. */
  lemma UnclearCollides(w: World, rules: seq<Rule>, clock: nat, f: Feature, now: nat) returns (q: Rule)
    requires Lawful(w) && Base(w, rules, clock) && SemanticFeature(w, f) && !Clear(w, rules, f) && Upsert(w, rules, f, now).Ok?
    ensures var written := Upsert(w, rules, f, now).value;
            && q in rules && q in written.rules && !q.status.Active? && written.rule in written.rules && written.rule.status.Active?
            && q.ruleId == written.rule.ruleId && q.approvalKey == written.rule.approvalKey
  {
    hide Created, Retired, ActiveMatch, SemanticFeature, Shaped, Chained;
    FoundByCode(w, rules, f);
    RetiredTakesKey(w, rules, clock, f);
    var p := Retired(w, rules, f);
    CreatedForm(w, rules, f, now, p);
    q :| q in rules && q.predecessor == Some(p.value.ruleId);
    SuccessorHasCode(w, rules, clock, p.value, q);
    ShapedIsChained(w, q);
    KeyDecidesPlace(q, Created(w, rules, f, now, p));
  }

  /** A rule stored under a type without a name is malformed, and no problem of its code can be approved any more. */
  lemma NamelessBlocksCode(w: World, rules: seq<Rule>, clock: nat, f: Feature, g: Feature, now: nat, later: nat)
    requires Lawful(w) && Sound(w, rules, clock) && clock < now && SemanticFeature(w, f) && Upsert(w, rules, f, now).Ok? && !Known(w, f)
    requires SemanticFeature(w, g) && CodeOf(w, g) == CodeOf(w, f)
    ensures var written := Upsert(w, rules, f, now).value;
            Classify(w, written.rule).Malformed? && written.rule in written.rules && Upsert(w, written.rules, g, later).Err?
  {
    hide Created, Rewritten, Retired, ActiveMatch, SemanticFeature, IndexOf, Shaped, Known, Filter, ValidV2, OneActive, Base;
    UpsertKeepsOneActive(w, rules, clock, f, now);
    UpsertWrites(w, rules, clock, f, now);
    var written := Upsert(w, rules, f, now).value;
    WrittenIsV2(w, rules, f, now);
    var occupied := Filter(written.rules, (r: Rule) => Occupies(w, r, SemanticKey(CodeOf(w, g)), BaseSignature(w, g)));
    assert written.rule in occupied;
  }

  lemma WrittenIsV2(w: World, rules: seq<Rule>, f: Feature, now: nat)
    requires SemanticFeature(w, f) && Upsert(w, rules, f, now).Ok?
    ensures Upsert(w, rules, f, now).value.rule.schema.V2?
  {
    hide SemanticFeature, ActiveMatch, Retired, ChooseSignature, KeyTaken, IdTaken;
  }

  const PROBLEM: Code := "cni.ip_pool_exhausted"

  /** A world in which everything resolves to itself. */
  const PLAIN := World(
    (f: Feature) => Resolution(Some(PROBLEM), true), (r: Rule) => Resolution(Some(r.problemCode), true),
    (t: string, c: Code) => Resolution(Some(c), true), (t: string) => t, (c: Code) => Some(c), (c: Code) => true, (r: Rule) => false)

  const POOL := Feature("network", "pool exhausted", {}, {Template("t1", "cni")}, {}, map[], false)

  const NAMELESS := POOL.(featureType := UNKNOWN_TYPE)

  /** Such a feature is accepted by an empty store. */
  lemma NamelessIsStored()
    ensures SemanticFeature(PLAIN, NAMELESS) && Upsert(PLAIN, [], NAMELESS, 1).Ok?
    ensures Classify(PLAIN, Upsert(PLAIN, [], NAMELESS, 1).value.rule).Malformed? && Upsert(PLAIN, Upsert(PLAIN, [], NAMELESS, 1).value.rules, POOL, 2).Err?
  {
    PlainIsLawful();
    EmptyIsSound(PLAIN);
    NamelessIsAccepted();
    hide Upsert, SemanticFeature, Sound, Classify, Known;
    NamelessBlocksCode(PLAIN, [], 0, NAMELESS, POOL, 1, 2);
  }

  lemma NamelessIsAccepted()
    ensures SemanticFeature(PLAIN, NAMELESS) && CodeOf(PLAIN, NAMELESS) == CodeOf(PLAIN, POOL) && !Known(PLAIN, NAMELESS)
    ensures Upsert(PLAIN, [], NAMELESS, 1).Ok?
  {
    assert Template("t1", "cni") in TemplatePairs(NAMELESS.templates);
    hide Created, ActiveMatch, Retired;
    assert ActiveMatch(PLAIN, [], NAMELESS).None? by { EmptyMatchesNothing(PLAIN, NAMELESS); }
  }

  lemma EmptyMatchesNothing(w: World, f: Feature)
    requires SemanticFeature(w, f)
    ensures ActiveMatch(w, [], f).None?
  {
  }

  const FIRST := KeyId(SemanticKey(PROBLEM))
  const SECOND := SuccessorId(SemanticKey(PROBLEM), FIRST)

  /** Approve, disable, approve again, disable the new rule, then archive the first one: each is permitted. */
  const RESTAMP := [
    Event(Approve(POOL), 1), Event(SetStatus(FIRST, Disabled, 1), 2), Event(Approve(POOL), 3),
    Event(SetStatus(SECOND, Disabled, 1), 4), Event(SetStatus(FIRST, Archived, 2), 5)]

  lemma PlainIsLawful()
    ensures Lawful(PLAIN) && SemanticFeature(PLAIN, POOL) && Known(PLAIN, POOL)
  {
  }

  /** An approval into a store without an active rule appends the created one. */
  lemma ApproveAppends(rules: seq<Rule>, clock: nat, now: nat, p: Option<Rule>)
    requires Sound(PLAIN, rules, clock) && clock < now && (forall r :: r in rules ==> !r.status.Active? && r.problemCode == PROBLEM)
    requires match p case None => rules == []
                     case Some(q) => q in rules && forall r :: r in rules && r != q ==> r.updatedAt < q.updatedAt
    ensures SemanticFeature(PLAIN, POOL)
    ensures Step(PLAIN, rules, Event(Approve(POOL), now)) == rules + [Created(PLAIN, rules, POOL, now, p)]
    ensures Retired(PLAIN, rules, POOL) == p && ActiveMatch(PLAIN, rules, POOL).None?
    ensures var r := Created(PLAIN, rules, POOL, now, p);
            && r.ruleId == (if p.None? then FIRST else SuccessorId(SemanticKey(PROBLEM), p.value.ruleId))
            && r.predecessor == (if p.None? then None else Some(p.value.ruleId))
            && r.status.Active? && r.updatedAt == now && r.version == 1 && r.problemCode == PROBLEM
  {
    hide ActiveMatch, Retired, Shaped;
    PlainIsLawful();
    FoundByCode(PLAIN, rules, POOL) by { assert forall r :: r in rules ==> Shaped(PLAIN, r); }
    RetiredTakesKey(PLAIN, rules, clock, POOL);
    NothingOccupies(PLAIN, rules, SemanticKey(PROBLEM), BaseSignature(PLAIN, POOL));
    assert Template("t1", "cni") in TemplatePairs(POOL.templates);
  }

  lemma StatusRewrites(rules: seq<Rule>, clock: nat, k: nat, status: Status, now: nat)
    requires Sound(PLAIN, rules, clock) && clock < now && k < |rules| && !status.Active?
    ensures var e := Event(SetStatus(rules[k].ruleId, status, rules[k].version), now);
            && Permitted(PLAIN, rules, e) && Sound(PLAIN, Step(PLAIN, rules, e), now)
            && Step(PLAIN, rules, e) == rules[k := rules[k].(status := status, version := rules[k].version + 1, updatedAt := now)]
  {
    hide Shaped, Classify;
    PlainIsLawful();
    OthersApart(PLAIN, rules, clock, k);
    ShapedIsValid(PLAIN, rules[k]);
    StepKeepsSound(PLAIN, rules, clock, Event(SetStatus(rules[k].ruleId, status, rules[k].version), now));
  }

  lemma ApprovePermitted(rules: seq<Rule>, clock: nat, now: nat)
    requires Sound(PLAIN, rules, clock) && Tailed(rules) && clock < now
    ensures var e := Event(Approve(POOL), now);
            && SemanticFeature(PLAIN, POOL) && Permitted(PLAIN, rules, e)
            && Sound(PLAIN, Step(PLAIN, rules, e), now) && Tailed(Step(PLAIN, rules, e))
  {
    PlainIsLawful();
    RetiringStep(PLAIN, rules, clock, Event(Approve(POOL), now));
    StepKeepsSound(PLAIN, rules, clock, Event(Approve(POOL), now));
  }

  /** Approve and disable: one retired rule. */
  lemma AfterFirst() returns (a: Rule)
    ensures SemanticFeature(PLAIN, POOL) && Permitted(PLAIN, [], RESTAMP[0]) && Permitted(PLAIN, Step(PLAIN, [], RESTAMP[0]), RESTAMP[1])
    ensures Step(PLAIN, Step(PLAIN, [], RESTAMP[0]), RESTAMP[1]) == [a] && Sound(PLAIN, [a], 2)
    ensures a.ruleId == FIRST && !a.status.Active? && a.problemCode == PROBLEM && a.predecessor.None? && a.updatedAt == 2 && a.version == 2
  {
    hide Created, Permitted, Sound, SemanticFeature, Shaped, Step;
    assert Sound(PLAIN, [], 0) by { EmptyIsSound(PLAIN); }
    ApprovePermitted([], 0, 1);
    ApproveAppends([], 0, 1, None);
    var s1 := Step(PLAIN, [], RESTAMP[0]);
    StatusRewrites(s1, 1, 0, Disabled, 2);
    a := s1[0].(status := Disabled, version := 2, updatedAt := 2);
    assert s1[0 := a] == [a];
  }

  lemma EmptyIsSound(w: World)
    ensures Sound(w, [], 0) && Tailed([])
  {
  }

  /** Approve again and disable that too: two retired rules, the second the successor of the first. */
  lemma AfterSecond(a: Rule) returns (b: Rule)
    requires Sound(PLAIN, [a], 2) && a.ruleId == FIRST && !a.status.Active? && a.problemCode == PROBLEM && a.predecessor.None?
    ensures SemanticFeature(PLAIN, POOL) && Permitted(PLAIN, [a], RESTAMP[2])
    ensures Permitted(PLAIN, Step(PLAIN, [a], RESTAMP[2]), RESTAMP[3])
    ensures Step(PLAIN, Step(PLAIN, [a], RESTAMP[2]), RESTAMP[3]) == [a, b] && Sound(PLAIN, [a, b], 4)
    ensures b.ruleId == SECOND && !b.status.Active? && b.problemCode == PROBLEM && b.predecessor == Some(FIRST) && b.updatedAt == 4
  {
    hide Created, Permitted, Sound, SemanticFeature, Shaped, Step;
    ApprovePermitted([a], 2, 3);
    ApproveAppends([a], 2, 3, Some(a));
    var s3 := Step(PLAIN, [a], RESTAMP[2]);
    StatusRewrites(s3, 3, 1, Disabled, 4);
    b := s3[1].(status := Disabled, version := 2, updatedAt := 4);
    assert s3[1 := b] == [a, b];
  }

  /** The bad case is reached by permitted events alone: the first rule, stamped again when archived, is the
      latest retired rule, and the second is already its successor. */
  lemma RestampReachesIt()
    ensures SemanticEvents(PLAIN, RESTAMP) && Timed(RESTAMP, 0) && PermittedRun(PLAIN, [], RESTAMP)
    ensures SemanticFeature(PLAIN, POOL) && !Clear(PLAIN, Run(PLAIN, [], RESTAMP), POOL)
  {
    hide Step, Permitted, SemanticFeature, Shaped, Clear, Sound;
    PlainIsLawful();
    var a := AfterFirst();
    var b := AfterSecond(a);
    StatusRewrites([a, b], 4, 0, Archived, 5);
    var c := a.(status := Archived, version := 3, updatedAt := 5);
    assert [a, b][0 := c] == [c, b];
    FiveSteps([a], [a, b], [c, b]);
    NotClear(c, b);
  }

  /** The last events of the run, from the `k`th: what the first of them does, and the rest. */
  lemma FromEvent(rules: seq<Rule>, k: nat, clock: nat)
    requires k < |RESTAMP| && SemanticEvents(PLAIN, RESTAMP)
    ensures SemanticEvents(PLAIN, RESTAMP[k..]) && SemanticEvents(PLAIN, RESTAMP[k + 1..])
    ensures Run(PLAIN, rules, RESTAMP[k..]) == Run(PLAIN, Step(PLAIN, rules, RESTAMP[k]), RESTAMP[k + 1..])
    ensures PermittedRun(PLAIN, rules, RESTAMP[k..]) <==>
            Permitted(PLAIN, rules, RESTAMP[k]) && PermittedRun(PLAIN, Step(PLAIN, rules, RESTAMP[k]), RESTAMP[k + 1..])
    ensures Timed(RESTAMP[k..], clock) <==> clock < RESTAMP[k].now && Timed(RESTAMP[k + 1..], RESTAMP[k].now)
  {
    hide Step, Permitted, SemanticFeature, RESTAMP;
    var events := RESTAMP[k..];
    assert events[0] == RESTAMP[k] && events[1..] == RESTAMP[k + 1..];
    assert forall e :: e in events ==> e in RESTAMP;
  }

  lemma FiveSteps(s2: seq<Rule>, s4: seq<Rule>, s5: seq<Rule>)
    requires SemanticFeature(PLAIN, POOL)
    requires Step(PLAIN, Step(PLAIN, [], RESTAMP[0]), RESTAMP[1]) == s2
    requires Step(PLAIN, Step(PLAIN, s2, RESTAMP[2]), RESTAMP[3]) == s4 && Step(PLAIN, s4, RESTAMP[4]) == s5
    requires Permitted(PLAIN, [], RESTAMP[0]) && Permitted(PLAIN, Step(PLAIN, [], RESTAMP[0]), RESTAMP[1])
    requires Permitted(PLAIN, s2, RESTAMP[2]) && Permitted(PLAIN, Step(PLAIN, s2, RESTAMP[2]), RESTAMP[3]) && Permitted(PLAIN, s4, RESTAMP[4])
    ensures SemanticEvents(PLAIN, RESTAMP) && Timed(RESTAMP, 0) && PermittedRun(PLAIN, [], RESTAMP)
    ensures Run(PLAIN, [], RESTAMP) == s5
  {
    hide Step, Permitted, SemanticFeature, Run, PermittedRun, Timed;
    assert SemanticEvents(PLAIN, RESTAMP);
    hide SemanticEvents;
    FromEvent(s4, 4, 4);
    NoEvents(s5, 5);
    FromEvent(Step(PLAIN, s2, RESTAMP[2]), 3, 3);
    FromEvent(s2, 2, 2);
    FromEvent(Step(PLAIN, [], RESTAMP[0]), 1, 1);
    FromEvent([], 0, 0);
    assert RESTAMP[5..] == [] && RESTAMP[0..] == RESTAMP;
  }

  lemma NoEvents(rules: seq<Rule>, clock: nat)
    ensures SemanticEvents(PLAIN, []) && Run(PLAIN, rules, []) == rules && PermittedRun(PLAIN, rules, []) && Timed([], clock)
  {
  }

  lemma NotClear(c: Rule, b: Rule)
    requires Sound(PLAIN, [c, b], 5) && SemanticFeature(PLAIN, POOL)
    requires c.ruleId == FIRST && b.predecessor == Some(FIRST) && !c.status.Active? && !b.status.Active?
    requires c.problemCode == b.problemCode == PROBLEM && b.updatedAt < c.updatedAt
    ensures !Clear(PLAIN, [c, b], POOL)
  {
    hide Step, Sound, Shaped;
    ApproveAppends([c, b], 5, 6, Some(c));
    assert b in [c, b];
  }
}
