/**
  HTTPProxy objects as the API server stores them: how rules are written to
  JSON and read back, and what the service's merge patch does to a stored
  object.
 */
module ProxyJson {
  import opened Text
  import opened Rules
  import opened Json

  const DISPLAY_NAME_ANNOTATION := "app.kubernetes.io/name"

  // ---- Writing ----

  function OptStr(o: Option<string>): Json {
    if o.Some? then Str(o.value) else Null
  }

  function EncodeAll<T>(xs: seq<T>, f: T -> Json): Json {
    Arr(seq(|xs|, i requires 0 <= i < |xs| => f(xs[i])))
  }

  function EncodePath(p: PathMatch): Json {
    Obj(map["type" := if p.kind.None? then Null else
                        (match p.kind.value
                         case PathPrefix => Str("PathPrefix")
                         case Exact => Str("Exact")
                         case RegularExpression => Str("RegularExpression")),
            "value" := OptStr(p.value)])
  }

  function EncodeHeader(h: HeaderMatch): Json {
    Obj(map["name" := Str(h.name), "type" := Str(if h.regex then "RegularExpression" else "Exact"), "value" := Str(h.value)])
  }

  function EncodeMatch(m: Match): Json {
    Obj(map["path" := if m.path.Some? then EncodePath(m.path.value) else Null,
            "headers" := if m.headers.Some? then EncodeAll(m.headers.value, EncodeHeader) else Null,
            "method" := OptStr(m.verb)])
  }

  function EncodeRedirect(r: Redirect): Json {
    Obj(map["type" := Str("RequestRedirect"),
            "requestRedirect" := Obj(map["scheme" := Str(r.scheme), "statusCode" := Num(PosInt(r.status))])])
  }

  function EncodeBackend(b: Backend): Json {
    Obj(map["endpoint" := Str(b.endpoint),
            "connector" := if b.connector.Some? then Obj(map["name" := Str(b.connector.value)]) else Null,
            "filters" := Null])
  }

  /** `serde_json::to_value` of a rule: absent options are written as null. */
  function EncodeRule(r: Rule): Json {
    Obj(map["name" := OptStr(r.name),
            "matches" := EncodeAll(r.matches, EncodeMatch),
            "filters" := if r.redirect.Some? then Arr([EncodeRedirect(r.redirect.value)]) else Null,
            "backends" := if r.backends.Some? then EncodeAll(r.backends.value, EncodeBackend) else Null])
  }

  function EncodeRules(rules: seq<Rule>): Json {
    EncodeAll(rules, EncodeRule)
  }

  // ---- Reading ----

  function ReadStr(v: Json): Option<string> {
    if v.Str? then Some(v.s) else None
  }

  function ReadAll<T>(items: seq<Json>, f: Json -> Option<T>): Option<seq<T>> {
    if items == [] then Some([])
    else
      var head, tail := f(items[0]), ReadAll(items[1..], f);
      if head.Some? && tail.Some? then Some([head.value] + tail.value) else None
  }

  function ReadArr<T>(v: Json, f: Json -> Option<T>): Option<seq<T>> {
    if v.Arr? then ReadAll(v.items, f) else None
  }

  function ReadPath(v: Json): Option<PathMatch> {
    if !v.Obj? then None
    else
      var kind := match Get(v, "type")
        case Str(s) => if s == "Exact" then Some(Exact)
                       else if s == "RegularExpression" then Some(RegularExpression)
                       else Some(PathPrefix)
        case _ => None;
      Some(PathMatch(kind, ReadStr(Get(v, "value"))))
  }

  function ReadHeader(v: Json): Option<HeaderMatch> {
    if Get(v, "name").Str? && Get(v, "value").Str?
    then Some(HeaderMatch(Get(v, "name").s, Get(v, "type") == Str("RegularExpression"), Get(v, "value").s))
    else None
  }

  function ReadMatch(v: Json): Option<Match> {
    if !v.Obj? then None
    else Some(Match(ReadPath(Get(v, "path")), ReadArr(Get(v, "headers"), ReadHeader), ReadStr(Get(v, "method"))))
  }

  function ReadRedirect(v: Json): Option<Redirect> {
    var r := Get(Item(v, 0), "requestRedirect");
    if Get(r, "scheme").Str? && Get(r, "statusCode").Num? && Get(r, "statusCode").num.PosInt?
    then Some(Redirect(Get(r, "scheme").s, Get(r, "statusCode").num.n)) else None
  }

  function ReadBackend(v: Json): Option<Backend> {
    if Get(v, "endpoint").Str?
    then Some(Backend(Get(v, "endpoint").s, ReadStr(Get(Get(v, "connector"), "name")))) else None
  }

  function ReadRule(v: Json): Option<Rule> {
    var matches := ReadArr(Get(v, "matches"), ReadMatch);
    if matches.None? then None
    else Some(Rule(ReadStr(Get(v, "name")), matches.value, ReadRedirect(Get(v, "filters")),
                   ReadArr(Get(v, "backends"), ReadBackend)))
  }

  function ReadRules(v: Json): Option<seq<Rule>> {
    ReadArr(v, ReadRule)
  }

  lemma {:induction false} ReadAllInverts<T(!new)>(xs: seq<T>, f: T -> Json, g: Json -> Option<T>)
    requires forall x :: g(f(x)) == Some(x)
    ensures ReadAll(EncodeAll(xs, f).items, g) == Some(xs)
  {
    if xs != [] {
      ReadAllInverts(xs[1..], f, g);
      assert EncodeAll(xs, f).items[1..] == EncodeAll(xs[1..], f).items;
      assert xs == [xs[0]] + xs[1..];
    }
  }

  lemma PathRoundTrip(p: PathMatch)
    ensures ReadPath(EncodePath(p)) == Some(p)
  {
  }

  lemma HeadersRoundTrip(headers: seq<HeaderMatch>)
    ensures ReadArr(EncodeAll(headers, EncodeHeader), ReadHeader) == Some(headers)
  {
    forall h: HeaderMatch ensures ReadHeader(EncodeHeader(h)) == Some(h) {}
    ReadAllInverts(headers, EncodeHeader, ReadHeader);
  }

  lemma MatchRoundTrip(m: Match)
    ensures ReadMatch(EncodeMatch(m)) == Some(m)
  {
    var v := EncodeMatch(m);
    if m.path.Some? {
      PathRoundTrip(m.path.value);
    }
    if m.headers.Some? {
      HeadersRoundTrip(m.headers.value);
    }
    assert ReadPath(Get(v, "path")) == m.path;
    assert ReadArr(Get(v, "headers"), ReadHeader) == m.headers;
  }

  lemma MatchesRoundTrip(matches: seq<Match>)
    ensures ReadArr(EncodeAll(matches, EncodeMatch), ReadMatch) == Some(matches)
  {
    forall m: Match ensures ReadMatch(EncodeMatch(m)) == Some(m) { MatchRoundTrip(m); }
    ReadAllInverts(matches, EncodeMatch, ReadMatch);
  }

  lemma BackendsRoundTrip(backends: seq<Backend>)
    ensures ReadArr(EncodeAll(backends, EncodeBackend), ReadBackend) == Some(backends)
  {
    forall b: Backend ensures ReadBackend(EncodeBackend(b)) == Some(b) {}
    ReadAllInverts(backends, EncodeBackend, ReadBackend);
  }

  lemma RedirectRoundTrip(r: Redirect)
    ensures ReadRedirect(Arr([EncodeRedirect(r)])) == Some(r)
  {
  }

  lemma RuleRoundTrip(r: Rule)
    ensures ReadRule(EncodeRule(r)) == Some(r)
  {
    var v := EncodeRule(r);
    MatchesRoundTrip(r.matches);
    if r.backends.Some? {
      BackendsRoundTrip(r.backends.value);
    }
    if r.redirect.Some? {
      RedirectRoundTrip(r.redirect.value);
    }
    assert ReadArr(Get(v, "matches"), ReadMatch) == Some(r.matches);
    assert ReadArr(Get(v, "backends"), ReadBackend) == r.backends;
    assert ReadRedirect(Get(v, "filters")) == r.redirect;
  }

  /** The wire names the control plane reads: where a backend's endpoint and
      connector are, and what the redirect of plain HTTP says. */
  lemma WireShape(endpoint: string, connector: string)
    ensures var b := Item(Get(EncodeRule(ProxyRule(endpoint, connector)), "backends"), 0);
      Get(b, "endpoint") == Str(endpoint) && Get(Get(b, "connector"), "name") == Str(connector)
    ensures var r := EncodeRule(HttpsRedirectRule());
      var f, h := Item(Get(r, "filters"), 0), Item(Get(Item(Get(r, "matches"), 0), "headers"), 0);
      && Get(f, "type") == Str("RequestRedirect")
      && Get(Get(f, "requestRedirect"), "scheme") == Str("https")
      && Get(Get(f, "requestRedirect"), "statusCode") == Num(PosInt(301))
      && Get(h, "name") == Str("x-forwarded-proto") && Get(h, "value") == Str("http")
  {
    BackendWire(endpoint, connector);
    RedirectWire();
  }

  lemma BackendWire(endpoint: string, connector: string)
    ensures var b := Item(Get(EncodeRule(ProxyRule(endpoint, connector)), "backends"), 0);
      b == EncodeBackend(Backend(endpoint, Some(connector)))
      && Get(b, "endpoint") == Str(endpoint) && Get(Get(b, "connector"), "name") == Str(connector)
  {
  }

  lemma RedirectWire()
    ensures var r := EncodeRule(HttpsRedirectRule());
      && Item(Get(r, "filters"), 0) == EncodeRedirect(Redirect("https", 301))
      && Item(Get(Item(Get(r, "matches"), 0), "headers"), 0) == EncodeHeader(HeaderMatch("x-forwarded-proto", false, "http"))
  {
    var m := HttpsRedirectRule().matches[0];
    assert Item(Get(EncodeRule(HttpsRedirectRule()), "matches"), 0) == EncodeMatch(m);
  }

  /** Rules read back as they were written. */
  lemma RulesRoundTrip(rules: seq<Rule>)
    ensures ReadRules(EncodeRules(rules)) == Some(rules)
  {
    forall r: Rule ensures ReadRule(EncodeRule(r)) == Some(r) { RuleRoundTrip(r); }
    ReadAllInverts(rules, EncodeRule, ReadRule);
  }

  // ---- The patch ----

  function EncodeStr(s: string): Json {
    Str(s)
  }

  function EncodeHostnames(hostnames: seq<string>): Json {
    EncodeAll(hostnames, EncodeStr)
  }

  lemma {:induction false} StringsByIndex(items: seq<Json>)
    requires ReadAll(items, ReadStr).Some?
    ensures var names := ReadAll(items, ReadStr).value;
      |names| == |items| && forall i | 0 <= i < |items| :: items[i] == Str(names[i])
  {
    if items != [] {
      StringsByIndex(items[1..]);
      var names, rest := ReadAll(items, ReadStr).value, ReadAll(items[1..], ReadStr).value;
      assert names == [items[0].s] + rest;
      forall i | 0 <= i < |items| ensures items[i] == Str(names[i]) {
        if i > 0 {
          assert items[i] == items[1..][i - 1] && names[i] == rest[i - 1];
        }
      }
    }
  }

  /** A list of strings is what reading and writing it gives. */
  lemma StringsRoundTrip(items: seq<Json>)
    requires ReadAll(items, ReadStr).Some?
    ensures EncodeHostnames(ReadAll(items, ReadStr).value) == Arr(items)
  {
    StringsByIndex(items);
    var names := ReadAll(items, ReadStr).value;
    forall i | 0 <= i < |items| ensures EncodeHostnames(names).items[i] == items[i] {
      assert items[i] == Str(names[i]) == EncodeStr(names[i]);
    }
  }

  lemma HostnamesRoundTrip(hostnames: seq<string>)
    ensures ReadArr(EncodeHostnames(hostnames), ReadStr) == Some(hostnames)
  {
    ReadAllInverts(hostnames, EncodeStr, ReadStr);
  }

  /** The merge patch every update, enable and retarget sends. */
  function ProxyPatch(display: string, hostnames: seq<string>, rules: seq<Rule>): Json {
    Obj(map["metadata" := Obj(map["annotations" := Obj(map[DISPLAY_NAME_ANNOTATION := Str(display)])]),
            "spec" := Obj(map["hostnames" := EncodeHostnames(hostnames), "rules" := EncodeRules(rules)])])
  }

  function Annotations(doc: Json): map<string, Json> {
    var a := Get(Get(doc, "metadata"), "annotations");
    if a.Obj? then a.fields else map[]
  }

  function StoredRules(doc: Json): Option<seq<Rule>> {
    ReadRules(Get(Get(doc, "spec"), "rules"))
  }

  /** `http_proxy_spec_matches` on a stored object. */
  predicate DocMatches(doc: Json, display: string, rules: seq<Rule>) {
    && DISPLAY_NAME_ANNOTATION in Annotations(doc) && Annotations(doc)[DISPLAY_NAME_ANNOTATION] == Str(display)
    && StoredRules(doc).Some? && EncodeRules(StoredRules(doc).value) == EncodeRules(rules)
  }

  /** The patched metadata and spec are the stored ones, patched. */
  lemma PatchedParts(doc: Json, display: string, hostnames: seq<string>, rules: seq<Rule>)
    ensures var patch := ProxyPatch(display, hostnames, rules); var after := MergePatch(doc, patch);
      && Get(after, "metadata") == MergePatch(Get(doc, "metadata"), Get(patch, "metadata"))
      && Get(after, "spec") == MergePatch(Get(doc, "spec"), Get(patch, "spec"))
      && (forall key | key != "metadata" && key != "spec" :: Get(after, key) == Get(doc, key))
  {
    var patch := ProxyPatch(display, hostnames, rules);
    forall key ensures key != "metadata" && key != "spec" ==> Get(MergePatch(doc, patch), key) == Get(doc, key) {
      MergePatchMeans(doc, patch, key);
    }
    MergePatchMeans(doc, patch, "metadata");
    MergePatchMeans(doc, patch, "spec");
  }

  lemma PatchedMetadata(meta: Json, display: string)
    ensures var after := MergePatch(meta, Obj(map["annotations" := Obj(map[DISPLAY_NAME_ANNOTATION := Str(display)])]));
      var before := Get(meta, "annotations");
      && Get(after, "annotations") == Obj((if before.Obj? then before.fields else map[])[DISPLAY_NAME_ANNOTATION := Str(display)])
      && (forall key | key != "annotations" :: Get(after, key) == Get(meta, key))
  {
    var inner := Obj(map[DISPLAY_NAME_ANNOTATION := Str(display)]);
    var before := Get(meta, "annotations");
    var merged := MergePatch(before, inner);
    var base := if before.Obj? then before.fields else map[];
    var expected := base[DISPLAY_NAME_ANNOTATION := Str(display)];
    assert merged.fields.Keys == expected.Keys;
    assert MergePatch(if DISPLAY_NAME_ANNOTATION in base then base[DISPLAY_NAME_ANNOTATION] else Null, Str(display)) == Str(display);
    assert forall k | k in expected :: merged.fields[k] == expected[k];
    assert merged.fields == expected;
  }

  lemma PatchedSpec(spec: Json, hostnames: Json, rules: Json)
    requires hostnames.Arr? && rules.Arr?
    ensures var after := MergePatch(spec, Obj(map["hostnames" := hostnames, "rules" := rules]));
      && Get(after, "rules") == rules && Get(after, "hostnames") == hostnames
      && (forall key | key != "hostnames" && key != "rules" :: Get(after, key) == Get(spec, key))
  {
  }

  /** Whatever the stored object, one patch makes it match what was asked, so
      the next call with the same arguments sends nothing; the hostnames sent
      are the ones it carries; every other
      annotation, and everything outside annotations, hostnames and rules, is
      kept. */
  lemma PatchSettles(doc: Json, display: string, hostnames: seq<string>, rules: seq<Rule>)
    ensures var after := MergePatch(doc, ProxyPatch(display, hostnames, rules));
      && DocMatches(after, display, rules)
      && StoredRules(after) == Some(rules)
      && Get(Get(after, "spec"), "hostnames") == EncodeHostnames(hostnames)
      && ReadArr(Get(Get(after, "spec"), "hostnames"), ReadStr) == Some(hostnames)
      && Annotations(after) == Annotations(doc)[DISPLAY_NAME_ANNOTATION := Str(display)]
      && (forall key | key != "metadata" && key != "spec" :: Get(after, key) == Get(doc, key))
      && (forall key | key != "annotations" :: Get(Get(after, "metadata"), key) == Get(Get(doc, "metadata"), key))
      && (forall key | key != "hostnames" && key != "rules" :: Get(Get(after, "spec"), key) == Get(Get(doc, "spec"), key))
  {
    RulesRoundTrip(rules);
    HostnamesRoundTrip(hostnames);
    PatchedParts(doc, display, hostnames, rules);
    PatchedMetadata(Get(doc, "metadata"), display);
    PatchedSpec(Get(doc, "spec"), EncodeHostnames(hostnames), EncodeRules(rules));
  }
}
