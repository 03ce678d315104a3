/** What every run of semantic approvals and status changes keeps of the rule store. */
module RuleChains {
  import opened Prelude
  import opened RuleStore

  // ----- the invariant -----

  /** Key, id and canonical key follow from the code and the predecessor. */
  predicate Chained(r: Rule) {
    var own := SemanticKey(r.problemCode);
    && (r.signature.Qualified? ==> r.signature.key == r.approvalKey)
    && match r.predecessor
       case None => r.approvalKey == own && r.ruleId == KeyId(own) && r.canonicalKey.None?
       case Some(p) => r.approvalKey == ReplacementKey(own, p) && r.ruleId == SuccessorId(own, p) && r.canonicalKey == Some(own)
  }

  predicate Shaped(w: World, r: Rule) {
    && r.schema.V2? && r.mode.Semantic? && w.isSafe(r.problemCode) && r.version >= 1
    && w.normalType(r.featureType) == r.featureType != UNKNOWN_TYPE
    && "" !in r.components && "" !in r.anchors && (forall t :: t in r.templates ==> t.identity != "")
    && Chained(r)
  }

  predicate Apart(a: Rule, b: Rule) {
    a.ruleId != b.ruleId && a.approvalKey != b.approvalKey && a.signature != b.signature && a.updatedAt != b.updatedAt
  }

  ghost predicate Precedes(rules: seq<Rule>, p: Rule, r: Rule) {
    p in rules && r.predecessor == Some(p.ruleId) && p.problemCode == r.problemCode && p.createdAt < r.createdAt
  }

  /** Whatever statuses governance sets: distinct identities, and predecessor links that go back in time. */
  ghost predicate Base(w: World, rules: seq<Rule>, clock: nat) {
    && (forall r :: r in rules ==> Shaped(w, r) && r.updatedAt <= clock && r.createdAt <= clock)
    && (forall i, j :: 0 <= i < j < |rules| ==> Apart(rules[i], rules[j]))
    && (forall r :: r in rules && r.predecessor.Some? ==> exists p :: Precedes(rules, p, r))
  }

  ghost predicate OneActive(rules: seq<Rule>) {
    forall a, b :: a in rules && b in rules && a.status.Active? && b.status.Active? && a.problemCode == b.problemCode ==> a == b
  }

  /** A rule that was replaced is retired, and was last changed before its successor. */
  ghost predicate Tailed(rules: seq<Rule>) {
    forall p, r :: p in rules && r in rules && r.predecessor == Some(p.ruleId) ==> !p.status.Active? && p.updatedAt < r.updatedAt
  }

  // ----- the writer meets the validator and the matcher -----

  lemma ShapedIsValid(w: World, r: Rule)
    requires Lawful(w) && Shaped(w, r)
    ensures Classify(w, r).Valid?
  {
    assert w.ofCode(r.featureType, r.problemCode).safe;
    assert KeyMatches(SemanticKey(r.problemCode), SemanticKey(r.problemCode));
  }

  /** A semantic rule of a safe code passes exactly with a named type, no blank component, anchor or template, a version
      from one on, the code's own key or one grown from it, and no other canonical key. */
  lemma ValidExactly(w: World, r: Rule)
    requires Lawful(w) && r.schema.V2? && r.mode.Semantic? && w.isSafe(r.problemCode)
    ensures Classify(w, r).Valid? <==>
            && w.normalType(r.featureType) != UNKNOWN_TYPE && r.version >= 1
            && "" !in r.components && "" !in r.anchors && (forall t :: t in r.templates ==> t.identity != "")
            && KeyMatches(r.approvalKey, SemanticKey(r.problemCode))
            && (r.canonicalKey.Some? ==> r.canonicalKey.value == SemanticKey(r.problemCode))
    ensures !Classify(w, r).Valid? ==> Classify(w, r).Malformed?
  {
    assert w.ofCode(r.featureType, r.problemCode).safe;
  }

  lemma MatchesByCode(w: World, r: Rule, f: Feature)
    requires Lawful(w) && Shaped(w, r) && SemanticFeature(w, f)
    ensures CodeMatch(w, r, f) <==> r.problemCode == CodeOf(w, f)
    ensures ExactMatch(w, r, f) <==> r.problemCode == CodeOf(w, f)
  {
    hide Classify;
    ShapedIsValid(w, r);
  }

  /** The rule an approval finds is the active one of its code. */
  lemma FoundByCode(w: World, rules: seq<Rule>, f: Feature)
    requires Lawful(w) && SemanticFeature(w, f) && forall r :: r in rules ==> Shaped(w, r)
    ensures match ActiveMatch(w, rules, f)
            case Some(e) => e in rules && e.status.Active? && e.problemCode == CodeOf(w, f)
            case None => forall r :: r in rules && r.status.Active? ==> r.problemCode != CodeOf(w, f)
    ensures match Retired(w, rules, f)
            case Some(p) => && p in rules && !p.status.Active? && p.problemCode == CodeOf(w, f)
                            && forall r :: r in rules && !r.status.Active? && r.problemCode == CodeOf(w, f) ==> r.updatedAt <= p.updatedAt
            case None => forall r :: r in rules && !r.status.Active? ==> r.problemCode != CodeOf(w, f)
  {
    hide Shaped, ExactMatch, CodeMatch;
    forall r | r in rules
      ensures CodeMatch(w, r, f) <==> r.problemCode == CodeOf(w, f)
      ensures ExactMatch(w, r, f) <==> r.problemCode == CodeOf(w, f)
    {
      MatchesByCode(w, r, f);
    }
    var actives := Filter(rules, (r: Rule) => r.status.Active? && CodeMatch(w, r, f));
    var exacts := Filter(rules, (r: Rule) => r.status.Active? && ExactMatch(w, r, f));
    var retired := Filter(rules, (r: Rule) => !r.status.Active? && (ExactMatch(w, r, f) || CodeMatch(w, r, f)));
    assert forall r :: r in rules && r.status.Active? && r.problemCode == CodeOf(w, f) ==> r in actives && r in exacts;
    assert forall r :: r in rules && !r.status.Active? && r.problemCode == CodeOf(w, f) ==> r in retired;
  }

  lemma {:induction false} NothingKept(rules: seq<Rule>, p: Rule -> bool)
    requires forall r :: r in rules ==> !p(r)
    ensures Filter(rules, p) == []
  {
    if rules != [] {
      assert rules[0] in rules;
      NothingKept(rules[1..], p);
    }
  }

  lemma NothingOccupies(w: World, rules: seq<Rule>, key: Key, signature: Signature)
    requires Lawful(w) && forall r :: r in rules ==> Shaped(w, r)
    ensures Filter(rules, (r: Rule) => Occupies(w, r, key, signature)) == []
  {
    hide Shaped;
    forall r | r in rules ensures !Occupies(w, r, key, signature) { ShapedIsValid(w, r); }
    NothingKept(rules, (r: Rule) => Occupies(w, r, key, signature));
  }

  // ----- steps that keep the base invariant -----

  lemma BaseAppend(w: World, rules: seq<Rule>, clock: nat, r: Rule, now: nat)
    requires Base(w, rules, clock) && clock < now && Shaped(w, r) && r.updatedAt == r.createdAt == now
    requires r.predecessor.Some? ==> exists p :: Precedes(rules, p, r)
    requires forall q :: q in rules ==> q.ruleId != r.ruleId && q.approvalKey != r.approvalKey && q.signature != r.signature
    ensures Base(w, rules + [r], now)
  {
    hide Shaped;
    var after := rules + [r];
    forall q | q in after && q.predecessor.Some?
      ensures exists p :: Precedes(after, p, q)
    {
      var p :| Precedes(rules, p, q);
      assert Precedes(after, p, q);
    }
  }

  predicate SameIdentity(a: Rule, b: Rule) {
    && a.ruleId == b.ruleId && a.approvalKey == b.approvalKey && a.problemCode == b.problemCode
    && a.predecessor == b.predecessor && a.createdAt == b.createdAt
  }

  lemma BaseReplace(w: World, rules: seq<Rule>, clock: nat, k: nat, r: Rule, now: nat)
    requires Base(w, rules, clock) && k < |rules| && Shaped(w, r) && SameIdentity(rules[k], r) && clock <= now
    requires r.updatedAt == rules[k].updatedAt || (r.updatedAt == now > clock)
    requires forall j :: 0 <= j < |rules| && j != k ==> rules[j].signature != r.signature
    ensures Base(w, rules[k := r], now)
  {
    hide Shaped;
    var after := rules[k := r];
    forall q | q in after ensures Shaped(w, q) && q.updatedAt <= now && q.createdAt <= now {
      if q != r { assert q in rules; } else { assert rules[k] in rules; }
    }
    forall q | q in after && q.predecessor.Some?
      ensures exists p :: Precedes(after, p, q)
    {
      var i :| 0 <= i < |after| && after[i] == q;
      var p :| Precedes(rules, p, rules[i]);
      var j :| 0 <= j < |rules| && rules[j] == p;
      assert Precedes(after, after[j], q);
    }
    forall i, j | 0 <= i < j < |after| ensures Apart(after[i], after[j]) {
      assert Apart(rules[i], rules[j]);
      assert rules[i] in rules && rules[j] in rules;
    }
  }

  /** Every chain has its first rule, under the code's own key. */
  lemma {:induction false} RootExists(w: World, rules: seq<Rule>, clock: nat, r: Rule) returns (root: Rule)
    requires Base(w, rules, clock) && r in rules
    ensures root in rules && root.predecessor.None? && root.problemCode == r.problemCode
    decreases r.createdAt
  {
    if r.predecessor.None? {
      root := r;
    } else {
      var p :| Precedes(rules, p, r);
      root := RootExists(w, rules, clock, p);
    }
  }

  lemma SignatureFresh(w: World, rules: seq<Rule>, evidence: Signature, key: Key, except: Option<RuleId>, r: Rule)
    requires Shaped(w, r) && r in rules && Some(r.ruleId) != except && r.approvalKey != key && evidence.Evidence?
    ensures r.signature != ChooseSignature(rules, evidence, key, except)
  {
  }

  // ----- upsert -----

  /** The guard that fails in the known bad case: the latest retired rule already has a successor. */
  ghost predicate Clear(w: World, rules: seq<Rule>, f: Feature)
    requires SemanticFeature(w, f)
  {
    ActiveMatch(w, rules, f).None? && Retired(w, rules, f).Some? ==>
      forall r :: r in rules ==> r.predecessor != Some(Retired(w, rules, f).value.ruleId)
  }

  /** A code without an active rule has a retired one exactly when its own key and id are taken. */
  lemma RetiredTakesKey(w: World, rules: seq<Rule>, clock: nat, f: Feature)
    requires Lawful(w) && Base(w, rules, clock) && SemanticFeature(w, f) && ActiveMatch(w, rules, f).None?
    ensures var own := SemanticKey(CodeOf(w, f));
            KeyTaken(rules, own) == IdTaken(rules, KeyId(own)) == Retired(w, rules, f).Some?
  {
    hide ActiveMatch, Retired, SemanticFeature;
    FoundByCode(w, rules, f);
    if Retired(w, rules, f).Some? {
      var root := RootExists(w, rules, clock, Retired(w, rules, f).value);
    }
  }

  lemma CreatedForm(w: World, rules: seq<Rule>, f: Feature, now: nat, p: Option<Rule>)
    requires Lawful(w) && SemanticFeature(w, f)
    requires KeyTaken(rules, SemanticKey(CodeOf(w, f))) == IdTaken(rules, KeyId(SemanticKey(CodeOf(w, f)))) == p.Some?
    ensures var r := Created(w, rules, f, now, p);
            && Chained(r) && r.problemCode == CodeOf(w, f) && r.updatedAt == r.createdAt == now && r.status.Active?
            && r.predecessor == (match p case Some(q) => Some(q.ruleId) case None => None)
            && r.signature == ChooseSignature(rules, BaseSignature(w, f), r.approvalKey, None)
            && (Shaped(w, r) <==> w.normalType(f.featureType) != UNKNOWN_TYPE)
            && (Classify(w, r).Valid? <==> Shaped(w, r))
  {
    hide KeyTaken, IdTaken, SignatureTaken;
    var r := Created(w, rules, f, now, p);
    if Shaped(w, r) { ShapedIsValid(w, r); }
  }

  lemma RewrittenForm(w: World, rules: seq<Rule>, f: Feature, now: nat, e: Rule)
    requires Lawful(w) && SemanticFeature(w, f) && Shaped(w, e) && e.problemCode == CodeOf(w, f)
    ensures var r := Rewritten(w, rules, f, now, e);
            && SameIdentity(e, r) && Chained(r) && r.updatedAt == now && r.status.Active?
            && r.signature == ChooseSignature(rules, BaseSignature(w, f), r.approvalKey, Some(e.ruleId))
            && (Shaped(w, r) <==> w.normalType(f.featureType) != UNKNOWN_TYPE)
            && (Classify(w, r).Valid? <==> Shaped(w, r))
            && (r.version == e.version <==> SameVersion(e, r))
  {
    hide SignatureTaken;
    var r := Rewritten(w, rules, f, now, e);
    if Shaped(w, r) { ShapedIsValid(w, r); }
  }

  /** Digests being injective, a key or an id decides the code and the predecessor. */
  lemma KeyDecidesPlace(a: Rule, b: Rule)
    requires Chained(a) && Chained(b)
    ensures a.approvalKey == b.approvalKey <==> a.problemCode == b.problemCode && a.predecessor == b.predecessor
    ensures a.ruleId == b.ruleId <==> a.approvalKey == b.approvalKey
  {
  }

  /** A successor belongs to the code of the rule it names. */
  lemma SuccessorHasCode(w: World, rules: seq<Rule>, clock: nat, p: Rule, q: Rule)
    requires Base(w, rules, clock) && p in rules && q in rules && q.predecessor == Some(p.ruleId)
    ensures q.problemCode == p.problemCode && p.createdAt < q.createdAt
  {
    hide Shaped;
    var other :| Precedes(rules, other, q);
    IdDecidesRule(w, rules, clock, p, other);
  }

  lemma IdDecidesRule(w: World, rules: seq<Rule>, clock: nat, a: Rule, b: Rule)
    requires Base(w, rules, clock) && a in rules && b in rules && a.ruleId == b.ruleId
    ensures a == b
  {
    hide Shaped;
    var i :| 0 <= i < |rules| && rules[i] == a;
    var j :| 0 <= j < |rules| && rules[j] == b;
    assert forall x, y :: 0 <= x < y < |rules| ==> Apart(rules[x], rules[y]);
  }

  predicate Known(w: World, f: Feature) { w.normalType(f.featureType) != UNKNOWN_TYPE }

  /** Creating keeps the store sound exactly when the place it takes is free and the feature type is known. */
  lemma CreateKeepsBase(w: World, rules: seq<Rule>, clock: nat, f: Feature, now: nat)
    requires Lawful(w) && Base(w, rules, clock) && clock < now && SemanticFeature(w, f) && ActiveMatch(w, rules, f).None?
    ensures Base(w, rules + [Created(w, rules, f, now, Retired(w, rules, f))], now) <==> Clear(w, rules, f) && Known(w, f)
  {
    hide Created, Retired, ActiveMatch, SemanticFeature, Chained, ChooseSignature;
    var p := Retired(w, rules, f);
    var r := Created(w, rules, f, now, p);
    var after := rules + [r];
    FoundByCode(w, rules, f);
    RetiredTakesKey(w, rules, clock, f);
    CreatedForm(w, rules, f, now, p);
    if Clear(w, rules, f) && Known(w, f) {
      forall q | q in rules
        ensures q.ruleId != r.ruleId && q.approvalKey != r.approvalKey && q.signature != r.signature
      {
        KeyDecidesPlace(q, r);
        SignatureFresh(w, rules, BaseSignature(w, f), r.approvalKey, None, q);
      }
      if p.Some? { assert Precedes(rules, p.value, r); }
      BaseAppend(w, rules, clock, r, now);
    } else if Known(w, f) {
      var q :| q in rules && q.predecessor == Some(p.value.ruleId);
      SuccessorHasCode(w, rules, clock, p.value, q);
      KeyDecidesPlace(q, r);
      var i :| 0 <= i < |rules| && rules[i] == q;
      assert after[i] == q && after[|rules|] == r && !Apart(after[i], after[|rules|]);
    } else {
      assert r in after;
    }
  }

  lemma RewriteKeepsBase(w: World, rules: seq<Rule>, clock: nat, f: Feature, now: nat, e: Rule)
    requires Lawful(w) && Base(w, rules, clock) && clock < now && SemanticFeature(w, f) && ActiveMatch(w, rules, f) == Some(e)
    ensures e in rules
    ensures Base(w, rules[IndexOf(rules, e) := Rewritten(w, rules, f, now, e)], now) <==> Known(w, f)
  {
    hide Rewritten, ActiveMatch, SemanticFeature, Chained, ChooseSignature, IndexOf;
    FoundByCode(w, rules, f);
    RewrittenForm(w, rules, f, now, e);
    var k := IndexOf(rules, e);
    var r := Rewritten(w, rules, f, now, e);
    if Known(w, f) {
      OthersKeepSignatures(w, rules, clock, k, BaseSignature(w, f));
      BaseReplace(w, rules, clock, k, r, now);
    } else {
      assert rules[k := r][k] == r;
    }
  }

  lemma OthersKeepSignatures(w: World, rules: seq<Rule>, clock: nat, k: nat, evidence: Signature)
    requires Base(w, rules, clock) && k < |rules| && evidence.Evidence?
    ensures forall j :: 0 <= j < |rules| && j != k ==>
              rules[j].signature != ChooseSignature(rules, evidence, rules[k].approvalKey, Some(rules[k].ruleId))
  {
    hide ChooseSignature, Shaped;
    OthersApart(w, rules, clock, k);
    forall j | 0 <= j < |rules| && j != k
      ensures rules[j].signature != ChooseSignature(rules, evidence, rules[k].approvalKey, Some(rules[k].ruleId))
    {
      SignatureFresh(w, rules, evidence, rules[k].approvalKey, Some(rules[k].ruleId), rules[j]);
    }
  }

  /** An approval keeps the store sound if and only if its type has a name and the latest retired rule of its
      code, when one is needed as predecessor, has no successor yet. */
  lemma UpsertKeepsBase(w: World, rules: seq<Rule>, clock: nat, f: Feature, now: nat)
    requires Lawful(w) && Base(w, rules, clock) && clock < now && SemanticFeature(w, f) && Upsert(w, rules, f, now).Ok?
    ensures Base(w, Upsert(w, rules, f, now).value.rules, now) <==> Clear(w, rules, f) && Known(w, f)
  {
    hide Created, Rewritten, Retired, ActiveMatch, SemanticFeature, Base, Known, IndexOf;
    if ActiveMatch(w, rules, f).Some? {
      RewriteKeepsBase(w, rules, clock, f, now, ActiveMatch(w, rules, f).value);
    } else {
      CreateKeepsBase(w, rules, clock, f, now);
    }
  }

  // ----- runs -----

  datatype Action = Approve(feature: Feature) | SetStatus(id: RuleId, status: Status, expected: nat) | Reuse(id: RuleId)

  datatype Event = Event(action: Action, now: nat)

  /** A refused action leaves the store as it was. */
  function Step(w: World, rules: seq<Rule>, e: Event): seq<Rule>
    requires e.action.Approve? ==> SemanticFeature(w, e.action.feature)
  {
    match e.action
    case Approve(f) => (match Upsert(w, rules, f, e.now) case Ok(written) => written.rules case Err(_) => rules)
    case SetStatus(id, status, expected) =>
      (match ChangeStatus(w, rules, id, status, expected, e.now) case Ok(changed) => changed case Err(_) => rules)
    case Reuse(id) => (match RecordReuse(w, rules, id, e.now) case Ok(changed) => changed case Err(_) => rules)
  }

  ghost predicate Sound(w: World, rules: seq<Rule>, clock: nat) {
    Base(w, rules, clock) && OneActive(rules)
  }

  /** Governance may set any status of any rule: the identities stay sound, and there is still one active rule
      per code exactly when no second one was made active. */
  lemma ChangeStatusKeeps(w: World, rules: seq<Rule>, clock: nat, id: RuleId, status: Status, expected: nat, now: nat)
    requires Lawful(w) && Sound(w, rules, clock) && clock < now && ChangeStatus(w, rules, id, status, expected, now).Ok?
    ensures FindsId(rules, id)
    ensures var after := ChangeStatus(w, rules, id, status, expected, now).value;
            Base(w, after, now) && (OneActive(after) <==> (status.Active? ==> Alone(rules, WhereId(rules, id))))
  {
    hide Chained, Classify;
    var k := WhereId(rules, id);
    var was := rules[k];
    var r := was.(status := status, version := expected + 1, updatedAt := now);
    var after := rules[k := r];
    StatusKeepsShape(w, was, status, expected + 1, now);
    OthersApart(w, rules, clock, k);
    BaseReplace(w, rules, clock, k, r, now);
    ReplaceKeepsOneActive(rules, k, r);
  }

  lemma OthersApart(w: World, rules: seq<Rule>, clock: nat, k: nat)
    requires Base(w, rules, clock) && k < |rules|
    ensures forall j :: 0 <= j < |rules| && j != k ==> Apart(rules[j], rules[k]) && Apart(rules[k], rules[j])
  {
    hide Shaped;
    forall j | 0 <= j < |rules| && j != k ensures Apart(rules[j], rules[k]) && Apart(rules[k], rules[j]) {
      assert Apart(rules[if j < k then j else k], rules[if j < k then k else j]);
    }
  }

  lemma StatusKeepsShape(w: World, r: Rule, status: Status, version: nat, now: nat)
    requires Shaped(w, r) && version >= 1
    ensures Shaped(w, r.(status := status, version := version, updatedAt := now))
  {
  }

  ghost predicate Alone(rules: seq<Rule>, k: nat)
    requires k < |rules|
  {
    forall j :: 0 <= j < |rules| && j != k && rules[j].status.Active? ==> rules[j].problemCode != rules[k].problemCode
  }

  lemma ReplaceKeepsOneActive(rules: seq<Rule>, k: nat, r: Rule)
    requires k < |rules| && OneActive(rules) && r.problemCode == rules[k].problemCode
    requires forall i, j :: 0 <= i < j < |rules| ==> rules[i] != rules[j]
    requires forall j :: 0 <= j < |rules| ==> rules[j] != r
    ensures OneActive(rules[k := r]) <==> (r.status.Active? ==> Alone(rules, k))
  {
    var after := rules[k := r];
    if r.status.Active? && !Alone(rules, k) {
      var j :| 0 <= j < |rules| && j != k && rules[j].status.Active? && rules[j].problemCode == rules[k].problemCode;
      assert after[j] in after && after[k] in after;
    } else {
      forall a, b | a in after && b in after && a.status.Active? && b.status.Active? && a.problemCode == b.problemCode
        ensures a == b
      {
        var i :| 0 <= i < |after| && after[i] == a;
        var j :| 0 <= j < |after| && after[j] == b;
        assert rules[i] in rules && rules[j] in rules;
      }
    }
  }
}
