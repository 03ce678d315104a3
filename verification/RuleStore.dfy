/**
 The approved-rule store of approved_rules.py, for semantic features, with the status changes of
 rule_governance.py. SHA-256 digests are injective constructors; the problem resolver is a parameter.
 */
module RuleStore {
  import opened Prelude

  type Code = string

  /** `build_approval_key` and `_replacement_key`: what each digest is taken of. */
  datatype Key =
    | SemanticKey(code: Code)
    | StructuralKey(featureType: string, code: Code, components: set<string>, anchors: set<string>)
    | ReplacementKey(base: Key, predecessor: RuleId)

  datatype RuleId = KeyId(key: Key) | SuccessorId(key: Key, predecessor: RuleId)

  datatype Template = Template(identity: string, category: string)

  datatype Signature = Evidence(featureType: string, templates: set<Template>) | Qualified(evidence: Signature, key: Key)

  datatype Status = Active | Disabled | UnderReview | Deprecated | Archived

  datatype Schema = LegacyV1 | V2 | UnknownSchema

  datatype Mode = Semantic | TemplateSet | NoMode

  /** The source of a rule; a written predecessor is also kept here. */
  datatype Lineage = Lineage(fields: map<string, string>, predecessor: Option<RuleId>)

  /** `description` is the title, summary, importance, tags, reason and supporting signatures together. */
  datatype Rule = Rule(
    ruleId: RuleId, signature: Signature, featureType: string, description: string, components: set<string>,
    templates: set<Template>, problemCode: Code, approvalKey: Key, canonicalKey: Option<Key>,
    predecessor: Option<RuleId>, anchors: set<string>, mode: Mode, lineage: Option<Lineage>, approvedAt: nat,
    createdAt: nat, updatedAt: nat, reuseCount: nat, lastReusedAt: Option<nat>, nextReviewAt: nat, schema: Schema,
    status: Status, version: nat)

  datatype Feature = Feature(featureType: string, description: string, components: set<string>, templates: set<Template>,
                             anchors: set<string>, lineage: map<string, string>, evaluatorFailed: bool)

  datatype Resolution = Resolution(code: Option<Code>, safe: bool)

  /** What the store takes from elsewhere: the problem resolver on its three kinds of input, the normal forms, and
      the validation of template-set rules. */
  datatype World = World(
    ofFeature: Feature -> Resolution, ofRule: Rule -> Resolution, ofCode: (string, Code) -> Resolution,
    normalType: string -> string, normalCode: Code -> Option<Code>, isSafe: Code -> bool, templateRuleValid: Rule -> bool)

  /** A safe code resolves to itself, and normal forms are stable. */
  ghost predicate Lawful(w: World) {
    && (forall f: Feature :: w.ofFeature(f).safe ==> w.ofFeature(f).code.Some? && w.isSafe(w.ofFeature(f).code.value))
    && (forall r: Rule :: r.mode.Semantic? && w.isSafe(r.problemCode) ==> w.ofRule(r) == Resolution(Some(r.problemCode), true))
    && (forall t: string, c: Code :: w.isSafe(c) ==> w.ofCode(t, c).safe)
    && (forall c: Code :: w.isSafe(c) ==> w.normalCode(c) == Some(c))
    && (forall t: string :: w.normalType(w.normalType(t)) == w.normalType(t))
  }

  const UNKNOWN_TYPE := "unknown_feature"
  const REVIEW_AFTER: nat := 30 * 24 * 3600

  // ----- identities -----

  predicate SemanticFeature(w: World, f: Feature) {
    w.ofFeature(f).safe && w.ofFeature(f).code.Some? && !f.evaluatorFailed
  }

  function BuildKey(w: World, featureType: string, code: Option<Code>, components: set<string>, anchors: set<string>): Key {
    var c := if code.Some? && w.normalCode(code.value).Some? then w.normalCode(code.value).value else "unknown.problem";
    if w.ofCode(featureType, c).safe then SemanticKey(c) else StructuralKey(w.normalType(featureType), c, components, anchors)
  }

  function CodeOf(w: World, f: Feature): Code
    requires SemanticFeature(w, f)
  {
    w.ofFeature(f).code.value
  }

  function Named(texts: set<string>): set<string> { set t | t in texts && t != "" }

  function TemplatePairs(templates: set<Template>): set<Template> { set t | t in templates && t.identity != "" }

  /** `_key_matches_expected`: the key itself, or a replacement grown from it. */
  predicate KeyMatches(stored: Key, expected: Key) {
    stored == expected || (stored.ReplacementKey? && KeyMatches(stored.base, expected))
  }

  // ----- classification -----

  datatype Format = Legacy | Valid | Malformed

  predicate SemanticRuleValid(w: World, r: Rule) {
    var expected := BuildKey(w, r.featureType, w.normalCode(r.problemCode), r.components, r.anchors);
    && w.ofRule(r).safe
    && KeyMatches(r.approvalKey, expected)
    && (r.canonicalKey.Some? ==> r.canonicalKey.value == expected)
  }

  predicate ValidV2(w: World, r: Rule) {
    && r.schema.V2?
    && w.normalType(r.featureType) != UNKNOWN_TYPE
    && "" !in r.components && "" !in r.anchors
    && (forall t :: t in r.templates ==> t.identity != "")
    && r.version >= 1
    && w.normalCode(r.problemCode).Some?
    && match r.mode
       case Semantic => SemanticRuleValid(w, r)
       case TemplateSet => w.templateRuleValid(r)
       case NoMode => false
  }

  function Classify(w: World, r: Rule): Format {
    if r.schema.LegacyV1? then Legacy else if ValidV2(w, r) then Valid else Malformed
  }

  // ----- selection -----

  function Filter(rules: seq<Rule>, p: Rule -> bool): (kept: seq<Rule>)
    ensures forall r :: r in kept <==> r in rules && p(r)
  {
    if rules == [] then []
    else if p(rules[0]) then [rules[0]] + Filter(rules[1..], p)
    else Filter(rules[1..], p)
  }

  /** The latest rule; among equals the first, which the id order of the stored list makes the smallest id. */
  function Preferred(rules: seq<Rule>): (best: Option<Rule>)
    ensures best.None? <==> rules == []
    ensures best.Some? ==> best.value in rules && forall r :: r in rules ==> r.updatedAt <= best.value.updatedAt
  {
    if rules == [] then None
    else
      var rest := Preferred(rules[1..]);
      if rest.None? || rules[0].updatedAt >= rest.value.updatedAt then Some(rules[0]) else rest
  }

  predicate ExactMatch(w: World, r: Rule, f: Feature)
    requires SemanticFeature(w, f)
  {
    && Classify(w, r).Valid?
    && (r.approvalKey == SemanticKey(CodeOf(w, f)) || r.canonicalKey == Some(SemanticKey(CodeOf(w, f))))
    && r.mode.Semantic?
  }

  predicate CodeMatch(w: World, r: Rule, f: Feature)
    requires SemanticFeature(w, f)
  {
    Classify(w, r).Valid? && r.mode.Semantic? && w.ofRule(r) == Resolution(Some(CodeOf(w, f)), true)
  }

  function ActiveMatch(w: World, rules: seq<Rule>, f: Feature): Option<Rule>
    requires SemanticFeature(w, f)
  {
    var exact := Preferred(Filter(rules, (r: Rule) => r.status.Active? && ExactMatch(w, r, f)));
    if exact.Some? then exact else Preferred(Filter(rules, (r: Rule) => r.status.Active? && CodeMatch(w, r, f)))
  }

  function Retired(w: World, rules: seq<Rule>, f: Feature): Option<Rule>
    requires SemanticFeature(w, f)
  {
    Preferred(Filter(rules, (r: Rule) => !r.status.Active? && (ExactMatch(w, r, f) || CodeMatch(w, r, f))))
  }

  /** `match_feature` on its semantic path. */
  function MatchFeature(w: World, rules: seq<Rule>, f: Feature): seq<Rule>
    requires f.evaluatorFailed || SemanticFeature(w, f)
  {
    if f.evaluatorFailed then []
    else match ActiveMatch(w, rules, f) case Some(r) => [r] case None => []
  }

  // ----- upsert -----

  datatype Refusal = NoTemplates | IdentityOccupied(rule: Rule) | NotFound | VersionConflict | Broken | NotActive

  predicate Occupies(w: World, r: Rule, key: Key, signature: Signature) {
    Classify(w, r).Malformed? && (r.approvalKey == key || r.canonicalKey == Some(key) || r.signature == signature)
  }

  function BaseSignature(w: World, f: Feature): Signature {
    Evidence(w.normalType(f.featureType), TemplatePairs(f.templates))
  }

  predicate KeyTaken(rules: seq<Rule>, key: Key) { exists r :: r in rules && r.approvalKey == key }

  predicate IdTaken(rules: seq<Rule>, id: RuleId) { exists r :: r in rules && r.ruleId == id }

  predicate SignatureTaken(rules: seq<Rule>, signature: Signature, except: Option<RuleId>) {
    exists r :: r in rules && r.signature == signature && Some(r.ruleId) != except
  }

  function ChooseSignature(rules: seq<Rule>, evidence: Signature, key: Key, except: Option<RuleId>): Signature {
    if SignatureTaken(rules, evidence, except) then Qualified(evidence, key) else evidence
  }

  /** The fields that count as a new version. */
  predicate SameVersion(a: Rule, b: Rule) {
    && a.signature == b.signature && a.featureType == b.featureType && a.description == b.description
    && a.components == b.components && a.templates == b.templates && a.problemCode == b.problemCode
    && a.approvalKey == b.approvalKey && a.anchors == b.anchors && a.mode == b.mode
    && a.canonicalKey == b.canonicalKey && a.predecessor == b.predecessor && a.lineage == b.lineage
  }

  /** The active rule rewritten in place. */
  function Rewritten(w: World, rules: seq<Rule>, f: Feature, now: nat, e: Rule): Rule
    requires SemanticFeature(w, f)
  {
    var r := Rule(
      e.ruleId, ChooseSignature(rules, BaseSignature(w, f), e.approvalKey, Some(e.ruleId)), w.normalType(f.featureType),
      f.description, Named(f.components), TemplatePairs(f.templates), CodeOf(w, f), e.approvalKey, e.canonicalKey,
      e.predecessor, Named(f.anchors), Semantic, if f.lineage != map[] then Some(Lineage(f.lineage, None)) else e.lineage,
      e.approvedAt, e.createdAt, now, e.reuseCount, e.lastReusedAt, e.nextReviewAt, V2, Active, e.version);
    if SameVersion(e, r) then r else r.(version := e.version + 1)
  }

  /** A rule for a code that has no active one; `p` is the latest retired rule of the code. */
  function Created(w: World, rules: seq<Rule>, f: Feature, now: nat, p: Option<Rule>): Rule
    requires SemanticFeature(w, f)
  {
    var own := SemanticKey(CodeOf(w, f));
    var key := if p.Some? && KeyTaken(rules, own) then ReplacementKey(own, p.value.ruleId) else own;
    var id := KeyId(own);
    var lineage := if f.lineage != map[] then Some(Lineage(f.lineage, None)) else None;
    Rule(
      if IdTaken(rules, id) then SuccessorId(own, if p.Some? then p.value.ruleId else id) else id,
      ChooseSignature(rules, BaseSignature(w, f), key, None), w.normalType(f.featureType), f.description,
      Named(f.components), TemplatePairs(f.templates), CodeOf(w, f), key, if p.Some? then Some(own) else None,
      if p.Some? then Some(p.value.ruleId) else None, Named(f.anchors), Semantic,
      if p.Some? then Some(Lineage(f.lineage, Some(p.value.ruleId))) else lineage,
      now, now, now, 0, None, now + REVIEW_AFTER, V2, Active, 1)
  }

  function IndexOf(rules: seq<Rule>, r: Rule): (k: nat)
    requires r in rules
    ensures k < |rules| && rules[k] == r
  {
    if rules[0] == r then 0 else 1 + IndexOf(rules[1..], r)
  }

  datatype Written = Written(rule: Rule, rules: seq<Rule>)

  function Upsert(w: World, rules: seq<Rule>, f: Feature, now: nat): Result<Written, Refusal>
    requires SemanticFeature(w, f)
  {
    if f.featureType == "" || TemplatePairs(f.templates) == {} then Err(NoTemplates)
    else
      var occupied := Filter(rules, (r: Rule) => Occupies(w, r, SemanticKey(CodeOf(w, f)), BaseSignature(w, f)));
      if occupied != [] then Err(IdentityOccupied(occupied[0]))
      else match ActiveMatch(w, rules, f)
      case Some(e) =>
        ActiveMatchFound(w, rules, f);
        var r := Rewritten(w, rules, f, now, e);
        Ok(Written(r, rules[IndexOf(rules, e) := r]))
      case None =>
        var r := Created(w, rules, f, now, Retired(w, rules, f));
        Ok(Written(r, rules + [r]))
  }

  lemma ActiveMatchFound(w: World, rules: seq<Rule>, f: Feature)
    requires SemanticFeature(w, f) && ActiveMatch(w, rules, f).Some?
    ensures ActiveMatch(w, rules, f).value in rules
  {
  }

  // ----- governance -----

  predicate FindsId(rules: seq<Rule>, id: RuleId) { exists r :: r in rules && r.ruleId == id }

  function WhereId(rules: seq<Rule>, id: RuleId): (k: nat)
    requires FindsId(rules, id)
    ensures k < |rules| && rules[k].ruleId == id
  {
    if rules[0].ruleId == id then 0
    else
      assert forall r :: r in rules ==> r == rules[0] || r in rules[1..];
      1 + WhereId(rules[1..], id)
  }

  function ChangeStatus(w: World, rules: seq<Rule>, id: RuleId, status: Status, expected: nat, now: nat): Result<seq<Rule>, Refusal> {
    if !FindsId(rules, id) then Err(NotFound)
    else
      var k := WhereId(rules, id);
      if rules[k].version != expected then Err(VersionConflict)
      else if Classify(w, rules[k]).Malformed? then Err(Broken)
      else Ok(rules[k := rules[k].(status := status, version := expected + 1, updatedAt := now)])
  }

  function RecordReuse(w: World, rules: seq<Rule>, id: RuleId, now: nat): Result<seq<Rule>, Refusal> {
    if !FindsId(rules, id) then Err(NotFound)
    else
      var k := WhereId(rules, id);
      if Classify(w, rules[k]).Malformed? then Err(Broken)
      else if !rules[k].status.Active? then Err(NotActive)
      else Ok(rules[k := rules[k].(reuseCount := rules[k].reuseCount + 1, lastReusedAt := Some(now))])
  }

  // ----- the store object -----

  class ApprovedRuleStore {
    var rules: seq<Rule>

    constructor ()
      ensures rules == []
    {
      rules := [];
    }

    /** Replaces the active rule of the feature's problem or adds one, as `Upsert` says; a refusal writes nothing. */
    method UpsertFeature(w: World, f: Feature, now: nat) returns (result: Result<Rule, Refusal>)
      requires SemanticFeature(w, f)
      modifies this
      ensures match old(Upsert(w, rules, f, now))
              case Ok(written) => result == Ok(written.rule) && rules == written.rules
              case Err(refusal) => result == Err(refusal) && rules == old(rules)
    {
      hide SemanticFeature, ActiveMatch, Retired, Occupies, TemplatePairs, KeyTaken, SignatureTaken, IdTaken, SameVersion, CodeOf, Named, IndexOf, Filter;
      var templates := TemplatePairs(f.templates);
      if f.featureType == "" || templates == {} {
        return Err(NoTemplates);
      }
      var own := SemanticKey(CodeOf(w, f));
      var signature := Evidence(w.normalType(f.featureType), templates);
      var occupied := Filter(rules, (r: Rule) => Occupies(w, r, own, signature));
      if occupied != [] {
        return Err(IdentityOccupied(occupied[0]));
      }
      var existing := ActiveMatch(w, rules, f);
      var predecessor := None;
      if existing.None? {
        predecessor := Retired(w, rules, f);
      }
      var approvalKey := if existing.Some? then existing.value.approvalKey else own;
      var canonicalKey, predecessorId := None, None;
      if predecessor.Some? {
        predecessorId := Some(predecessor.value.ruleId);
        canonicalKey := Some(own);
        if KeyTaken(rules, approvalKey) {
          approvalKey := ReplacementKey(own, predecessor.value.ruleId);
        }
      }
      if SignatureTaken(rules, signature, if existing.Some? then Some(existing.value.ruleId) else None) {
        signature := Qualified(signature, approvalKey);
      }
      var ruleId := if existing.Some? then existing.value.ruleId else KeyId(own);
      if existing.None? && IdTaken(rules, ruleId) {
        ruleId := SuccessorId(own, if predecessorId.Some? then predecessorId.value else ruleId);
      }
      var lineage := None;
      if f.lineage != map[] {
        lineage := Some(Lineage(f.lineage, None));
      } else if existing.Some? {
        lineage := existing.value.lineage;
      }
      if predecessorId.Some? {
        lineage := Some(Lineage(f.lineage, predecessorId));
      }
      var rule := Rule(
        ruleId, signature, w.normalType(f.featureType), f.description, Named(f.components), templates, CodeOf(w, f),
        approvalKey, canonicalKey, predecessorId, Named(f.anchors), Semantic, lineage, now, now, now, 0, None,
        now + REVIEW_AFTER, V2, Active, 1);
      if existing.Some? {
        var e := existing.value;
        rule := rule.(canonicalKey := e.canonicalKey, predecessor := e.predecessor, approvedAt := e.approvedAt,
                      createdAt := e.createdAt, reuseCount := e.reuseCount, lastReusedAt := e.lastReusedAt,
                      nextReviewAt := e.nextReviewAt, version := e.version);
        if !SameVersion(e, rule) {
          rule := rule.(version := e.version + 1);
        }
        ActiveMatchFound(w, rules, f);
        rules := rules[IndexOf(rules, e) := rule];
      } else {
        rules := rules + [rule];
      }
      return Ok(rule);
    }

    method Reuse(w: World, id: RuleId, now: nat) returns (result: Result<Rule, Refusal>)
      modifies this
      ensures match old(RecordReuse(w, rules, id, now))
              case Ok(changed) => rules == changed && result == Ok(changed[old(WhereId(rules, id))])
              case Err(refusal) => result == Err(refusal) && rules == old(rules)
    {
      if !FindsId(rules, id) {
        return Err(NotFound);
      }
      var k := WhereId(rules, id);
      if Classify(w, rules[k]).Malformed? {
        return Err(Broken);
      }
      if !rules[k].status.Active? {
        return Err(NotActive);
      }
      rules := rules[k := rules[k].(reuseCount := rules[k].reuseCount + 1, lastReusedAt := Some(now))];
      return Ok(rules[k]);
    }
  }
}
