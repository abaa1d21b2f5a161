/**
  The tunnel's WAF policy: what counts as managed, legacy or foreign, and how
  `ensure_waf` tasks share the stored policy with each other and with edits
  made in the portal.
 */
module Waf {
  import opened Text
  import opened Json
  import Rules

  const MANAGED_BY_ANNOTATION := "connect.datum.net/managed-by"
  const MANAGED_BY_VALUE := "datum-connect-addon"
  const DISPLAY_NAME_ANNOTATION := "networking.datumapis.com/display-name"
  const HTTP_ROUTE_GROUP := "gateway.networking.k8s.io"

  function Int(n: nat): Json {
    Num(PosInt(n))
  }

  function ParanoiaLevels(): Json {
    Obj(map["blocking" := Int(1), "detection" := Int(1)])
  }

  function ScoreThresholds(): Json {
    Obj(map["inbound" := Int(5), "outbound" := Int(4)])
  }

  function RuleExclusions(): Json {
    Obj(map["ids" := Arr([Int(920420)])])
  }

  function DesiredSpec(id: string): Json {
    Obj(map[
      "mode" := Str("Enforce"),
      "samplingPercentage" := Int(100),
      "ruleSets" := Arr([Obj(map[
        "type" := Str("OWASPCoreRuleSet"),
        "owaspCoreRuleSet" := Obj(map["paranoiaLevels" := ParanoiaLevels(), "scoreThresholds" := ScoreThresholds(),
                                      "ruleExclusions" := RuleExclusions()])])]),
      "targetRefs" := Arr([Obj(map["group" := Str(HTTP_ROUTE_GROUP), "kind" := Str("HTTPRoute"), "name" := Str(id),
                                   "sectionName" := Str(Rules.WAF_PROTECTED_RULE_NAME)])])])
  }

  function Annotations(policy: Json): Json {
    Get(Get(policy, "metadata"), "annotations")
  }

  predicate HasManagedBy(policy: Json) {
    var a := Annotations(policy);
    a.Obj? && MANAGED_BY_ANNOTATION in a.fields
  }

  /** jq's `//`; a missing value reads as null. */
  function OrDefault(v: Json, default: Json): Json {
    if v == Null || v == Bool(false) then default else v
  }

  function Items(v: Json): seq<Json> {
    if v.Arr? then v.items else []
  }

  predicate LegacyTarget(refs: Json, id: string) {
    && |Items(refs)| == 1
    && Get(Item(refs, 0), "kind") == Str("HTTPRoute")
    && Get(Item(refs, 0), "name") == Str(id)
    && OrDefault(Get(Item(refs, 0), "sectionName"), Str("")) == Str("")
  }

  predicate LegacyRuleSets(sets: Json) {
    var crs := Get(Item(sets, 0), "owaspCoreRuleSet");
    && |Items(sets)| == 1
    && Get(Item(sets, 0), "type") == Str("OWASPCoreRuleSet")
    && JsonEq(Get(crs, "paranoiaLevels"), ParanoiaLevels())
    && JsonEq(Get(crs, "scoreThresholds"), ScoreThresholds())
    && JsonEq(Get(crs, "ruleExclusions"), RuleExclusions())
  }

  /** `is_legacy_addon_waf`. */
  predicate IsLegacy(policy: Json, id: string) {
    var spec := Get(policy, "spec");
    && Get(spec, "mode") == Str("Disabled")
    && !HasManagedBy(policy)
    && JsonEq(OrDefault(Get(spec, "samplingPercentage"), Int(100)), Int(100))
    && LegacyTarget(Get(spec, "targetRefs"), id)
    && LegacyRuleSets(Get(spec, "ruleSets"))
  }

  datatype ExistingWaf = Managed | Legacy | Foreign

  /** `classify_existing_waf`. */
  function Classify(policy: Json, id: string): ExistingWaf {
    if HasManagedBy(policy) then Managed
    else if IsLegacy(policy, id) then Legacy
    else Foreign
  }

  function NewWaf(id: string, display: string): Json {
    Obj(map["metadata" := Obj(map["name" := Str(id + "-waf"),
                                  "annotations" := Obj(map[DISPLAY_NAME_ANNOTATION := Str(display),
                                                           MANAGED_BY_ANNOTATION := Str(MANAGED_BY_VALUE)])]),
            "spec" := DesiredSpec(id)])
  }

  function Fields(v: Json): map<string, Json> {
    if v.Obj? then v.fields else map[]
  }

  /** `upgraded_waf_policy`. */
  function Upgraded(existing: Json, id: string): Json {
    var meta := Fields(Get(existing, "metadata"));
    var annotations := Fields(Annotations(existing))[MANAGED_BY_ANNOTATION := Str(MANAGED_BY_VALUE)];
    Obj((Fields(existing) - {"status"})["spec" := DesiredSpec(id)]["metadata" := Obj(meta["annotations" := Obj(annotations)])])
  }

  /** The upgrade is what it says: managed, current spec, nothing else lost. */
  lemma UpgradeKeeps(existing: Json, id: string)
    ensures var after := Upgraded(existing, id);
      && Classify(after, id) == Managed
      && Get(after, "spec") == DesiredSpec(id) && Get(after, "status") == Null
      && (forall key | key != "spec" && key != "status" && key != "metadata" :: Get(after, key) == Get(existing, key))
      && (forall key | key != "annotations" :: Get(Get(after, "metadata"), key) == Get(Get(existing, "metadata"), key))
      && (forall key | key != MANAGED_BY_ANNOTATION :: Get(Annotations(after), key) == Get(Annotations(existing), key))
  {
  }

  // ---- The legacy shape ----

  /** The one document add-on 0.1.5 and 0.1.6 wrote, in the fields looked at. */
  function LegacySpec(id: string): Json {
    Obj(map[
      "mode" := Str("Disabled"),
      "samplingPercentage" := Num(PosInt(100)),
      "targetRefs" := Arr([Obj(map["kind" := Str("HTTPRoute"), "name" := Str(id), "sectionName" := Str("")])]),
      "ruleSets" := Arr([Obj(map[
        "type" := Str("OWASPCoreRuleSet"),
        "owaspCoreRuleSet" := Obj(map[
          "paranoiaLevels" := Obj(map["blocking" := Num(PosInt(1)), "detection" := Num(PosInt(1))]),
          "scoreThresholds" := Obj(map["inbound" := Num(PosInt(5)), "outbound" := Num(PosInt(4))]),
          "ruleExclusions" := Obj(map["ids" := Arr([Num(PosInt(920420))])])])])])])
  }

  function SpecDoc(mode: Json, sampling: Json, refs: Json, sets: Json): Json {
    Obj(map["mode" := mode]["samplingPercentage" := sampling]["targetRefs" := refs]["ruleSets" := sets])
  }

  function RefDoc(kind: Json, name: Json, section: Json): Json {
    Obj(map["kind" := kind]["name" := name]["sectionName" := section])
  }

  function CrsDoc(levels: Json, thresholds: Json, exclusions: Json): Json {
    Obj(map["paranoiaLevels" := levels]["scoreThresholds" := thresholds]["ruleExclusions" := exclusions])
  }

  function SetDoc(kind: Json, crs: Json): Json {
    Obj(map["type" := kind]["owaspCoreRuleSet" := crs])
  }

  function RefView(r: Json): Json {
    RefDoc(Get(r, "kind"), Get(r, "name"), OrDefault(Get(r, "sectionName"), Str("")))
  }

  function SetView(r: Json): Json {
    var crs := Get(r, "owaspCoreRuleSet");
    SetDoc(Get(r, "type"), CrsDoc(Get(crs, "paranoiaLevels"), Get(crs, "scoreThresholds"), Get(crs, "ruleExclusions")))
  }

  function Each(items: seq<Json>, f: Json -> Json): Json {
    Arr(seq(|items|, i requires 0 <= i < |items| => f(items[i])))
  }

  /** The looked-at fields of a policy, the two defaults filled in. */
  function View(policy: Json): Json {
    var spec := Get(policy, "spec");
    SpecDoc(Get(spec, "mode"), OrDefault(Get(spec, "samplingPercentage"), Num(PosInt(100))),
            Each(Items(Get(spec, "targetRefs")), RefView), Each(Items(Get(spec, "ruleSets")), SetView))
  }

  /** Objects that gain one field each. */
  lemma FieldEqual(x: map<string, Json>, y: map<string, Json>, k: string, a: Json, b: Json)
    requires k !in x && k !in y
    ensures JsonEq(Obj(x[k := a]), Obj(y[k := b])) <==> JsonEq(Obj(x), Obj(y)) && JsonEq(a, b)
  {
    var x', y' := x[k := a], y[k := b];
    assert |x'| == |x| + 1 && |y'| == |y| + 1;
    if JsonEq(Obj(x'), Obj(y')) {
      assert k in x' && JsonEq(x'[k], y'[k]);
      forall j | j in x ensures j in y && JsonEq(x[j], y[j]) {
        assert j in x' && j in y' && JsonEq(x'[j], y'[j]);
      }
    }
    if JsonEq(Obj(x), Obj(y)) && JsonEq(a, b) {
      forall j | j in x' ensures j in y' && JsonEq(x'[j], y'[j]) {
        assert j != k ==> j in x && JsonEq(x[j], y[j]);
      }
    }
  }

  lemma TwoFields(k1: string, a1: Json, b1: Json, k2: string, a2: Json, b2: Json)
    requires k1 != k2
    ensures JsonEq(Obj(map[k1 := a1][k2 := a2]), Obj(map[k1 := b1][k2 := b2])) <==> JsonEq(a1, b1) && JsonEq(a2, b2)
  {
    FieldEqual(map[], map[], k1, a1, b1);
    FieldEqual(map[k1 := a1], map[k1 := b1], k2, a2, b2);
    assert JsonEq(Obj(map[]), Obj(map[]));
    assert map[][k1 := a1] == map[k1 := a1] && map[][k1 := b1] == map[k1 := b1];
  }

  lemma ThreeFields(k1: string, a1: Json, b1: Json, k2: string, a2: Json, b2: Json, k3: string, a3: Json, b3: Json)
    requires k1 != k2 && k3 != k1 && k3 != k2
    ensures JsonEq(Obj(map[k1 := a1][k2 := a2][k3 := a3]), Obj(map[k1 := b1][k2 := b2][k3 := b3]))
      <==> JsonEq(a1, b1) && JsonEq(a2, b2) && JsonEq(a3, b3)
  {
    TwoFields(k1, a1, b1, k2, a2, b2);
    FieldEqual(map[k1 := a1][k2 := a2], map[k1 := b1][k2 := b2], k3, a3, b3);
  }

  lemma SpecDocsEqual(m: Json, p: Json, r: Json, s: Json, m': Json, p': Json, r': Json, s': Json)
    ensures JsonEq(SpecDoc(m, p, r, s), SpecDoc(m', p', r', s')) <==> JsonEq(m, m') && JsonEq(p, p') && JsonEq(r, r') && JsonEq(s, s')
  {
    ThreeFields("mode", m, m', "samplingPercentage", p, p', "targetRefs", r, r');
    FieldEqual(map["mode" := m]["samplingPercentage" := p]["targetRefs" := r],
               map["mode" := m']["samplingPercentage" := p']["targetRefs" := r'], "ruleSets", s, s');
  }

  lemma RefDocsEqual(k: Json, n: Json, s: Json, k': Json, n': Json, s': Json)
    ensures JsonEq(RefDoc(k, n, s), RefDoc(k', n', s')) <==> JsonEq(k, k') && JsonEq(n, n') && JsonEq(s, s')
  {
    ThreeFields("kind", k, k', "name", n, n', "sectionName", s, s');
  }

  lemma CrsDocsEqual(l: Json, t: Json, e: Json, l': Json, t': Json, e': Json)
    ensures JsonEq(CrsDoc(l, t, e), CrsDoc(l', t', e')) <==> JsonEq(l, l') && JsonEq(t, t') && JsonEq(e, e')
  {
    ThreeFields("paranoiaLevels", l, l', "scoreThresholds", t, t', "ruleExclusions", e, e');
  }

  lemma SetDocsEqual(k: Json, c: Json, k': Json, c': Json)
    ensures JsonEq(SetDoc(k, c), SetDoc(k', c')) <==> JsonEq(k, k') && JsonEq(c, c')
  {
    TwoFields("type", k, k', "owaspCoreRuleSet", c, c');
  }

  lemma OneItemEqual(items: seq<Json>, f: Json -> Json, y: Json)
    ensures JsonEq(Each(items, f), Arr([y])) <==> |items| == 1 && JsonEq(f(items[0]), y)
  {
    var x := Each(items, f).items;
    if |items| == 1 {
      assert x[0] == f(items[0]) && [y][0] == y;
      assert JsonEq(Arr(x), Arr([y])) <==> JsonEq(x[0], [y][0]);
    }
  }

  lemma StringEqual(v: Json, s: string)
    ensures JsonEq(v, Str(s)) <==> v == Str(s)
  {
  }

  lemma LegacySpecParts(id: string)
    ensures LegacySpec(id) == SpecDoc(Str("Disabled"), Int(100),
      Arr([RefDoc(Str("HTTPRoute"), Str(id), Str(""))]),
      Arr([SetDoc(Str("OWASPCoreRuleSet"), CrsDoc(ParanoiaLevels(), ScoreThresholds(), RuleExclusions()))]))
  {
  }

  lemma TargetIsView(refs: Json, id: string)
    ensures LegacyTarget(refs, id) <==> JsonEq(Each(Items(refs), RefView), Arr([RefDoc(Str("HTTPRoute"), Str(id), Str(""))]))
  {
    OneItemEqual(Items(refs), RefView, RefDoc(Str("HTTPRoute"), Str(id), Str("")));
    var r := Item(refs, 0);
    RefDocsEqual(Get(r, "kind"), Get(r, "name"), OrDefault(Get(r, "sectionName"), Str("")), Str("HTTPRoute"), Str(id), Str(""));
    StringEqual(Get(r, "kind"), "HTTPRoute");
    StringEqual(Get(r, "name"), id);
    StringEqual(OrDefault(Get(r, "sectionName"), Str("")), "");
  }

  lemma RuleSetsAreView(sets: Json, l: Json, t: Json, e: Json)
    requires l == ParanoiaLevels() && t == ScoreThresholds() && e == RuleExclusions()
    ensures LegacyRuleSets(sets) <==> JsonEq(Each(Items(sets), SetView), Arr([SetDoc(Str("OWASPCoreRuleSet"), CrsDoc(l, t, e))]))
  {
    OneItemEqual(Items(sets), SetView, SetDoc(Str("OWASPCoreRuleSet"), CrsDoc(l, t, e)));
    var r := Item(sets, 0);
    var crs := Get(r, "owaspCoreRuleSet");
    SetDocsEqual(Get(r, "type"), CrsDoc(Get(crs, "paranoiaLevels"), Get(crs, "scoreThresholds"), Get(crs, "ruleExclusions")),
                 Str("OWASPCoreRuleSet"), CrsDoc(l, t, e));
    CrsDocsEqual(Get(crs, "paranoiaLevels"), Get(crs, "scoreThresholds"), Get(crs, "ruleExclusions"), l, t, e);
    StringEqual(Get(r, "type"), "OWASPCoreRuleSet");
  }

  /** The policy carries the annotation, under its literal key. */
  predicate Annotated(policy: Json) {
    var a := Get(Get(policy, "metadata"), "annotations");
    a.Obj? && "connect.datum.net/managed-by" in a.fields
  }

  /** Without the annotation, and the legacy document in the fields looked at. */
  predicate IsTheDocument(policy: Json, id: string) {
    !Annotated(policy) && JsonEq(View(policy), LegacySpec(id))
  }

  /** A policy is managed exactly if it is annotated, and legacy exactly if it is
      not and, in the fields looked at with their defaults, is the one legacy
      document. */
  lemma LegacyIsTheDocument(policy: Json, id: string)
    ensures Classify(policy, id) == Managed <==> Annotated(policy)
    ensures Classify(policy, id) == Legacy <==> IsTheDocument(policy, id)
    ensures IsLegacy(policy, id) <==> IsTheDocument(policy, id)
  {
    var spec := Get(policy, "spec");
    LegacySpecParts(id);
    TargetIsView(Get(spec, "targetRefs"), id);
    RuleSetsAreView(Get(spec, "ruleSets"), ParanoiaLevels(), ScoreThresholds(), RuleExclusions());
    StringEqual(Get(spec, "mode"), "Disabled");
    ViewEqual(policy, Str("Disabled"), Int(100), Arr([RefDoc(Str("HTTPRoute"), Str(id), Str(""))]),
              Arr([SetDoc(Str("OWASPCoreRuleSet"), CrsDoc(ParanoiaLevels(), ScoreThresholds(), RuleExclusions()))]));
  }

  /** The document itself is a legacy policy, for its own tunnel and no other. */
  lemma TheDocumentIsLegacy(id: string, other: string)
    requires other != id
    ensures Classify(Obj(map["spec" := LegacySpec(id)]), id) == Legacy
    ensures Classify(Obj(map["spec" := LegacySpec(id)]), other) == Foreign
  {
    var p := Obj(map["spec" := LegacySpec(id)]);
    DocumentParts(id);
    ViewOfTheDocument(id);
    JsonEqReflexive(LegacySpec(id));
    LegacyIsTheDocument(p, id);
    assert !LegacyTarget(Get(Get(p, "spec"), "targetRefs"), other);
  }

  lemma DocumentParts(id: string)
    ensures var p := Obj(map["spec" := LegacySpec(id)]);
      && Get(p, "spec") == LegacySpec(id) && Get(p, "metadata") == Null
      && Get(Item(Get(Get(p, "spec"), "targetRefs"), 0), "name") == Str(id)
  {
  }

  lemma ViewOfTheDocument(id: string)
    ensures View(Obj(map["spec" := LegacySpec(id)])) == LegacySpec(id)
  {
    var spec := LegacySpec(id);
    var ref, rules := Items(Get(spec, "targetRefs"))[0], Items(Get(spec, "ruleSets"))[0];
    assert RefView(ref) == ref;
    assert SetView(rules) == rules;
    assert Each(Items(Get(spec, "targetRefs")), RefView) == Get(spec, "targetRefs");
    assert Each(Items(Get(spec, "ruleSets")), SetView) == Get(spec, "ruleSets");
  }

  /** The document's paranoia levels: one of them changed makes another policy. */
  function Levels(blocking: nat, detection: nat): Json {
    Obj(map["blocking" := Num(PosInt(blocking)), "detection" := Num(PosInt(detection))])
  }

  /** Some looked-at field is not the document's. */
  predicate Differs(policy: Json, id: string) {
    var spec := Get(policy, "spec");
    var ref, set1 := Item(Get(spec, "targetRefs"), 0), Item(Get(spec, "ruleSets"), 0);
    var crs := Get(set1, "owaspCoreRuleSet");
    || Annotated(policy)
    || Get(spec, "mode") != Str("Disabled")
    || !JsonEq(OrDefault(Get(spec, "samplingPercentage"), Num(PosInt(100))), Num(PosInt(100)))
    || |Items(Get(spec, "targetRefs"))| != 1 || Get(ref, "kind") != Str("HTTPRoute") || Get(ref, "name") != Str(id)
    || OrDefault(Get(ref, "sectionName"), Str("")) != Str("")
    || |Items(Get(spec, "ruleSets"))| != 1 || Get(set1, "type") != Str("OWASPCoreRuleSet")
    || !JsonEq(Get(crs, "paranoiaLevels"), Levels(1, 1))
    || !JsonEq(Get(crs, "scoreThresholds"), Obj(map["inbound" := Num(PosInt(5)), "outbound" := Num(PosInt(4))]))
    || !JsonEq(Get(crs, "ruleExclusions"), Obj(map["ids" := Arr([Num(PosInt(920420))])]))
  }

  lemma DifferentIsNotLegacy(policy: Json, id: string)
    ensures Differs(policy, id) <==> !IsTheDocument(policy, id)
  {
    LegacyIsTheDocument(policy, id);
  }

  /** The current spec: enforced on everything, the same rule set, scoped to the
      rule of that name which the tunnel's own proxy carries once streams are
      exempted. */
  lemma DesiredSpecMeans(id: string, endpoint: string, connector: string, exempt: seq<Rules.Match>)
    requires exempt != []
    ensures var spec, rules := DesiredSpec(id), Rules.DesiredRules(endpoint, connector, exempt);
      var ref := Item(Get(spec, "targetRefs"), 0);
      && Get(spec, "mode") == Str("Enforce") && Get(spec, "samplingPercentage") == Num(PosInt(100))
      && |Items(Get(spec, "targetRefs"))| == 1
      && Get(ref, "group") == Str("gateway.networking.k8s.io") && Get(ref, "kind") == Str("HTTPRoute") && Get(ref, "name") == Str(id)
      && |rules| == 3 && rules[2].name.Some? && Get(ref, "sectionName") == Str(rules[2].name.value)
      && rules[1].name != rules[2].name
      && Get(spec, "ruleSets") == Get(LegacySpec(id), "ruleSets")
  {
    assert Rules.WAF_EXEMPT_RULE_NAME[0] == 's' && Rules.WAF_PROTECTED_RULE_NAME[0] == 'p';
  }

  /** A new policy carries the current spec, its label and the annotation. */
  lemma NewWafMeans(id: string, display: string)
    ensures var p := NewWaf(id, display);
      && Get(p, "spec") == DesiredSpec(id) && Annotated(p)
      && Get(Get(p, "metadata"), "name") == Str(id + "-waf")
      && Get(Annotations(p), "networking.datumapis.com/display-name") == Str(display)
      && Get(Annotations(p), "connect.datum.net/managed-by") == Str("datum-connect-addon")
  {
  }

  lemma ViewEqual(policy: Json, m: Json, p: Json, r: Json, s: Json)
    ensures var spec := Get(policy, "spec");
      JsonEq(View(policy), SpecDoc(m, p, r, s)) <==>
        && JsonEq(Get(spec, "mode"), m) && JsonEq(OrDefault(Get(spec, "samplingPercentage"), Int(100)), p)
        && JsonEq(Each(Items(Get(spec, "targetRefs")), RefView), r) && JsonEq(Each(Items(Get(spec, "ruleSets")), SetView), s)
  {
    var spec := Get(policy, "spec");
    SpecDocsEqual(Get(spec, "mode"), OrDefault(Get(spec, "samplingPercentage"), Int(100)),
                  Each(Items(Get(spec, "targetRefs")), RefView), Each(Items(Get(spec, "ruleSets")), SetView), m, p, r, s);
  }

  // ---- Classification respects json_eq ----

  lemma ManagedAgrees(a: Json, b: Json)
    requires JsonEq(a, b)
    ensures HasManagedBy(a) == HasManagedBy(b)
  {
    LookupsAgree(a, b, "metadata", 0);
    LookupsAgree(Get(a, "metadata"), Get(b, "metadata"), "annotations", 0);
    LookupsAgree(Annotations(a), Annotations(b), MANAGED_BY_ANNOTATION, 0);
  }

  lemma StringsAgree(a: Json, b: Json, s: string)
    requires JsonEq(a, b)
    ensures a == Str(s) <==> b == Str(s)
    ensures OrDefault(a, Str("")) == Str("") <==> OrDefault(b, Str("")) == Str("")
  {
  }

  lemma ConstantsAgree(a: Json, b: Json, c: Json)
    requires JsonEq(a, b)
    ensures JsonEq(a, c) <==> JsonEq(b, c)
  {
    JsonEqSymmetric(a, b);
    if JsonEq(a, c) {
      JsonEqTransitive(b, a, c);
    }
    if JsonEq(b, c) {
      JsonEqTransitive(a, b, c);
    }
  }

  lemma TargetsAgree(a: Json, b: Json, id: string)
    requires JsonEq(a, b)
    ensures LegacyTarget(a, id) <==> LegacyTarget(b, id)
  {
    LookupsAgree(a, b, "", 0);
    var x, y := Item(a, 0), Item(b, 0);
    LookupsAgree(x, y, "kind", 0);
    LookupsAgree(x, y, "name", 0);
    LookupsAgree(x, y, "sectionName", 0);
    StringsAgree(Get(x, "kind"), Get(y, "kind"), "HTTPRoute");
    StringsAgree(Get(x, "name"), Get(y, "name"), id);
    StringsAgree(Get(x, "sectionName"), Get(y, "sectionName"), "");
  }

  lemma FieldAgrees(a: Json, b: Json, key: string, c: Json)
    requires JsonEq(a, b)
    ensures JsonEq(Get(a, key), c) <==> JsonEq(Get(b, key), c)
  {
    LookupsAgree(a, b, key, 0);
    ConstantsAgree(Get(a, key), Get(b, key), c);
  }

  lemma RuleSetsAgree(a: Json, b: Json)
    requires JsonEq(a, b)
    ensures LegacyRuleSets(a) <==> LegacyRuleSets(b)
  {
    LookupsAgree(a, b, "", 0);
    var x, y := Item(a, 0), Item(b, 0);
    LookupsAgree(x, y, "type", 0);
    StringsAgree(Get(x, "type"), Get(y, "type"), "OWASPCoreRuleSet");
    LookupsAgree(x, y, "owaspCoreRuleSet", 0);
    var s, t := Get(x, "owaspCoreRuleSet"), Get(y, "owaspCoreRuleSet");
    FieldAgrees(s, t, "paranoiaLevels", ParanoiaLevels());
    FieldAgrees(s, t, "scoreThresholds", ScoreThresholds());
    FieldAgrees(s, t, "ruleExclusions", RuleExclusions());
  }

  /** Policies that are `json_eq` are classified alike, though the legacy test
      mixes exact comparisons, defaults and `json_eq`. */
  lemma ClassifyRespectsJsonEq(a: Json, b: Json, id: string)
    requires JsonEq(a, b)
    ensures Classify(a, id) == Classify(b, id)
  {
    ManagedAgrees(a, b);
    LookupsAgree(a, b, "spec", 0);
    SpecsAgree(Get(a, "spec"), Get(b, "spec"), id);
  }

  lemma SpecsAgree(s: Json, t: Json, id: string)
    requires JsonEq(s, t)
    ensures Get(s, "mode") == Str("Disabled") <==> Get(t, "mode") == Str("Disabled")
    ensures JsonEq(OrDefault(Get(s, "samplingPercentage"), Int(100)), Int(100))
      <==> JsonEq(OrDefault(Get(t, "samplingPercentage"), Int(100)), Int(100))
    ensures LegacyTarget(Get(s, "targetRefs"), id) <==> LegacyTarget(Get(t, "targetRefs"), id)
    ensures LegacyRuleSets(Get(s, "ruleSets")) <==> LegacyRuleSets(Get(t, "ruleSets"))
  {
    LookupsAgree(s, t, "mode", 0);
    StringsAgree(Get(s, "mode"), Get(t, "mode"), "Disabled");
    LookupsAgree(s, t, "samplingPercentage", 0);
    ConstantsAgree(Get(s, "samplingPercentage"), Get(t, "samplingPercentage"), Int(100));
    LookupsAgree(s, t, "targetRefs", 0);
    TargetsAgree(Get(s, "targetRefs"), Get(t, "targetRefs"), id);
    LookupsAgree(s, t, "ruleSets", 0);
    RuleSetsAgree(Get(s, "ruleSets"), Get(t, "ruleSets"));
  }

  // ---- Concurrent ensures and portal edits ----

  /** A stored policy and its resourceVersion. */
  datatype Policy = Policy(doc: Json, version: nat)

  /** An `ensure_waf` task between its await points: about to read, about to
      create, or about to replace what it read. */
  datatype Task = Reading | Creating | Replacing(read: Policy) | Finished

  datatype Write = Write(before: Option<Policy>, after: Policy)

  /** `next` is the resourceVersion the server hands out next; `log` records
      what `ensure_waf` wrote over what. */
  datatype World = World(stored: Option<Policy>, next: nat, tasks: map<nat, Task>, log: seq<Write>)

  /** `Answered`: the call took effect and said so; `Lost`: it took effect but
      the answer was lost; `Failed`: it did not happen. */
  datatype Reply = Answered | Lost | Failed

  datatype Event =
    | Spawn(task: nat)
    | Advance(task: nat, reply: Reply)
    | PortalPut(doc: Json)     // create or edit
    | PortalDelete

  function Stored(w: World, doc: Json): World {
    w.(stored := Some(Policy(doc, w.next)), next := w.next + 1)
  }

  function Wrote(w: World, doc: Json): World {
    Stored(w, doc).(log := w.log + [Write(w.stored, Policy(doc, w.next))])
  }

  function NextTask(seen: Option<Policy>, id: string): Task {
    if seen.None? then Creating
    else if Classify(seen.value.doc, id) == Legacy then Replacing(seen.value)
    else Finished
  }

  /** The server's side of a create or replace: 409 when the object exists, or
      when its version is not the one sent. */
  function Apply(w: World, t: Task, id: string, display: string): World {
    match t
    case Creating => if w.stored.None? then Wrote(w, NewWaf(id, display)) else w
    case Replacing(read) =>
      if w.stored.Some? && w.stored.value.version == read.version then Wrote(w, Upgraded(read.doc, id)) else w
    case _ => w
  }

  function AdvanceTask(w: World, k: nat, reply: Reply, id: string, display: string): World {
    if k !in w.tasks then w
    else
      var t := w.tasks[k];
      if t.Reading? then w.(tasks := w.tasks[k := if reply.Answered? then NextTask(w.stored, id) else Finished])
      else (if reply.Failed? then w else Apply(w, t, id, display)).(tasks := w.tasks[k := Finished])
  }

  function Step(w: World, e: Event, id: string, display: string): World {
    match e
    case Spawn(k) => if k in w.tasks then w else w.(tasks := w.tasks[k := Reading])
    case Advance(k, reply) => AdvanceTask(w, k, reply, id, display)
    case PortalPut(doc) => Stored(w, doc)
    case PortalDelete => w.(stored := None)
  }

  function Run(w: World, events: seq<Event>, id: string, display: string): World
    decreases |events|
  {
    if events == [] then w else Run(Step(w, events[0], id, display), events[1..], id, display)
  }

  function Start(stored: Option<Policy>): World {
    World(stored, if stored.Some? then stored.value.version + 1 else 0, map[], [])
  }

  /** A write is sound when it filled a gap or replaced the exact legacy shape
      that was stored at that moment, and left a managed policy. */
  ghost predicate Sound(e: Write, id: string, display: string) {
    && (e.before.None? || IsTheDocument(e.before.value.doc, id))
    && e.after.doc == (if e.before.None? then NewWaf(id, display) else Upgraded(e.before.value.doc, id))
    && Annotated(e.after.doc) && Get(e.after.doc, "spec") == DesiredSpec(id)
  }

  /** What a task read is legacy, and its version still names that content. */
  ghost predicate TaskOk(t: Task, w: World, id: string) {
    t.Replacing? ==>
      && Classify(t.read.doc, id) == Legacy
      && t.read.version < w.next
      && (w.stored.Some? && w.stored.value.version == t.read.version ==> w.stored.value == t.read)
  }

  ghost predicate Inv(w: World, id: string, display: string) {
    && (w.stored.Some? ==> w.stored.value.version < w.next)
    && (forall k | k in w.tasks :: TaskOk(w.tasks[k], w, id))
    && (forall i | 0 <= i < |w.log| :: Sound(w.log[i], id, display))
  }

  /** A write of a sound kind keeps the invariant: its version is new, so no
      task's read can be mistaken for it. */
  lemma WroteKeeps(w: World, doc: Json, id: string, display: string)
    requires Inv(w, id, display) && Sound(Write(w.stored, Policy(doc, w.next)), id, display)
    ensures Inv(Wrote(w, doc), id, display)
  {
    var w' := Wrote(w, doc);
    forall k | k in w'.tasks ensures TaskOk(w'.tasks[k], w', id) {
      assert TaskOk(w.tasks[k], w, id);
    }
  }

  lemma NewIsSound(version: nat, id: string, display: string)
    ensures Sound(Write(None, Policy(NewWaf(id, display), version)), id, display)
  {
    NewWafMeans(id, display);
  }

  lemma UpgradeIsSound(read: Policy, version: nat, id: string, display: string)
    ensures Classify(read.doc, id) == Legacy ==> Sound(Write(Some(read), Policy(Upgraded(read.doc, id), version)), id, display)
  {
    UpgradeKeeps(read.doc, id);
    LegacyIsTheDocument(read.doc, id);
    LegacyIsTheDocument(Upgraded(read.doc, id), id);
  }

  lemma ApplyKeeps(w: World, t: Task, id: string, display: string)
    requires Inv(w, id, display) && TaskOk(t, w, id)
    ensures Inv(Apply(w, t, id, display), id, display)
    ensures Apply(w, t, id, display).tasks == w.tasks
  {
    match t
    case Creating =>
      if w.stored.None? {
        NewIsSound(w.next, id, display);
        WroteKeeps(w, NewWaf(id, display), id, display);
      }
    case Replacing(read) =>
      if w.stored.Some? && w.stored.value.version == read.version {
        UpgradeIsSound(read, w.next, id, display);
        WroteKeeps(w, Upgraded(read.doc, id), id, display);
      }
    case _ =>
  }

  lemma SettingTaskKeeps(w: World, k: nat, t: Task, id: string, display: string)
    requires Inv(w, id, display) && TaskOk(t, w, id)
    ensures Inv(w.(tasks := w.tasks[k := t]), id, display)
  {
    var w' := w.(tasks := w.tasks[k := t]);
    forall j | j in w'.tasks ensures TaskOk(w'.tasks[j], w', id) {
      assert j != k ==> TaskOk(w.tasks[j], w, id);
    }
  }

  lemma StepKeeps(w: World, e: Event, id: string, display: string)
    requires Inv(w, id, display)
    ensures Inv(Step(w, e, id, display), id, display)
  {
    match e
    case Spawn(k) => SettingTaskKeeps(w, k, Reading, id, display);
    case Advance(k, reply) =>
      if k in w.tasks {
        var t := w.tasks[k];
        assert TaskOk(t, w, id);
        if t.Reading? {
          SettingTaskKeeps(w, k, if reply.Answered? then NextTask(w.stored, id) else Finished, id, display);
        } else {
          ApplyKeeps(w, t, id, display);
          SettingTaskKeeps(if reply.Failed? then w else Apply(w, t, id, display), k, Finished, id, display);
        }
      }
    case PortalPut(doc) =>
      forall k | k in w.tasks ensures TaskOk(w.tasks[k], Stored(w, doc), id) {
        assert TaskOk(w.tasks[k], w, id);
      }
    case PortalDelete =>
      forall k | k in w.tasks ensures TaskOk(w.tasks[k], Step(w, e, id, display), id) {
        assert TaskOk(w.tasks[k], w, id);
      }
  }

  lemma {:induction false} RunKeeps(w: World, events: seq<Event>, id: string, display: string)
    requires Inv(w, id, display)
    ensures Inv(Run(w, events, id, display), id, display)
    decreases |events|
  {
    if events != [] {
      StepKeeps(w, events[0], id, display);
      RunKeeps(Step(w, events[0], id, display), events[1..], id, display);
    }
  }

  /** Over every interleaving of any number of ensures with portal edits,
      deletes and recreations: whatever an ensure wrote went onto nothing or
      onto the exact legacy policy, and is managed. */
  lemma EveryWriteIsSound(stored: Option<Policy>, events: seq<Event>, id: string, display: string)
    ensures var w := Run(Start(stored), events, id, display);
      forall i | 0 <= i < |w.log| :: Sound(w.log[i], id, display)
  {
    RunKeeps(Start(stored), events, id, display);
  }

  predicate IsPortal(e: Event) {
    e.PortalPut? || e.PortalDelete?
  }

  /** Once the stored policy is not legacy, no ensure, old or new, changes it
      until the portal does. */
  lemma {:induction false} SettledStays(w: World, events: seq<Event>, id: string, display: string)
    requires Inv(w, id, display) && w.stored.Some? && Classify(w.stored.value.doc, id) != Legacy
    requires forall i | 0 <= i < |events| :: !IsPortal(events[i])
    ensures var w' := Run(w, events, id, display); w'.stored == w.stored && w'.log == w.log
    decreases |events|
  {
    if events != [] {
      var e := events[0];
      StepKeeps(w, e, id, display);
      if e.Advance? && e.task in w.tasks {
        assert TaskOk(w.tasks[e.task], w, id);
      }
      SettledStays(Step(w, e, id, display), events[1..], id, display);
    }
  }

  lemma WritingSettles(w: World, e: Event, id: string, display: string)
    requires Inv(w, id, display) && |Step(w, e, id, display).log| > |w.log|
    ensures Step(w, e, id, display).stored.Some? && Classify(Step(w, e, id, display).stored.value.doc, id) == Managed
  {
    if w.tasks[e.task].Replacing? {
      UpgradeKeeps(w.tasks[e.task].read.doc, id);
    }
  }

  /** In any reachable state a stored policy that differs in any field looked at,
      or is annotated, survives every step of every ensure. */
  lemma DifferentIsKept(stored: Option<Policy>, events: seq<Event>, e: Event, id: string, display: string)
    requires var w := Run(Start(stored), events, id, display); w.stored.Some? && Differs(w.stored.value.doc, id)
    requires !IsPortal(e)
    ensures var w := Run(Start(stored), events, id, display); Step(w, e, id, display).stored == w.stored
  {
    var w := Run(Start(stored), events, id, display);
    RunKeeps(Start(stored), events, id, display);
    DifferentIsNotLegacy(w.stored.value.doc, id);
    LegacyIsTheDocument(w.stored.value.doc, id);
    assert Run(w, [e], id, display) == Step(w, e, id, display) by {
      assert [e][1..] == [];
    }
    SettledStays(w, [e], id, display);
  }

  /** In any reachable state, after a write by an ensure and until the next
      portal event, every further ensure writes nothing. */
  lemma AfterAWriteQuiet(stored: Option<Policy>, events: seq<Event>, e: Event, more: seq<Event>, id: string, display: string)
    requires var w := Run(Start(stored), events, id, display); |Step(w, e, id, display).log| > |w.log|
    requires forall i | 0 <= i < |more| :: !IsPortal(more[i])
    ensures var w := Step(Run(Start(stored), events, id, display), e, id, display);
      Run(w, more, id, display).log == w.log && Run(w, more, id, display).stored == w.stored
  {
    var w := Run(Start(stored), events, id, display);
    RunKeeps(Start(stored), events, id, display);
    StepKeeps(w, e, id, display);
    WritingSettles(w, e, id, display);
    SettledStays(Step(w, e, id, display), more, id, display);
  }

  /** Left alone, one ensure creates an absent policy, upgrades a legacy one and
      keeps any other. */
  lemma AloneItSettles(stored: Option<Policy>, id: string, display: string)
    ensures var w := Run(Start(stored), [Spawn(0), Advance(0, Answered), Advance(0, Answered)], id, display);
      && w.stored.Some?
      && (stored.None? ==> w.stored.value.doc == NewWaf(id, display))
      && (stored.Some? && Classify(stored.value.doc, id) == Legacy ==> w.stored.value.doc == Upgraded(stored.value.doc, id))
      && (stored.Some? && Classify(stored.value.doc, id) != Legacy ==> w.stored == stored && w.log == [])
  {
    var w0 := Start(stored);
    var w1 := Step(w0, Spawn(0), id, display);
    var w2 := Step(w1, Advance(0, Answered), id, display);
    var w3 := Step(w2, Advance(0, Answered), id, display);
    var events := [Spawn(0), Advance(0, Answered), Advance(0, Answered)];
    assert events[1..][1..] == events[2..] && events[2..][1..] == [];
    assert Run(w2, events[2..], id, display) == w3;
    assert Run(w1, events[1..], id, display) == w3;
  }
}
