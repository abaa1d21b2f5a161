/**
  The rules the tunnel service writes to an HTTPProxy, how the edge routes by
  them, and how endpoint and connector are read back from them.
 */
module Rules {
  import opened Text

  datatype PathKind = PathPrefix | Exact | RegularExpression

  datatype PathMatch = PathMatch(kind: Option<PathKind>, value: Option<string>)

  datatype HeaderMatch = HeaderMatch(name: string, regex: bool, value: string)

  /** One HTTPRoute match: all of its criteria must hold. */
  datatype Match = Match(path: Option<PathMatch>, headers: Option<seq<HeaderMatch>>, verb: Option<string>)

  datatype Redirect = Redirect(scheme: string, status: nat)

  datatype Backend = Backend(endpoint: string, connector: Option<string>)

  datatype Rule = Rule(name: Option<string>, matches: seq<Match>, redirect: Option<Redirect>, backends: Option<seq<Backend>>)

  const WAF_EXEMPT_RULE_NAME := "streams"
  const WAF_PROTECTED_RULE_NAME := "protected"

  function RootPath(): PathMatch {
    PathMatch(Some(PathPrefix), Some("/"))
  }

  function DefaultMatch(): Match {
    Match(Some(RootPath()), None, None)
  }

  /** Plain HTTP is upgraded before it reaches a backend rule. */
  function HttpsRedirectRule(): Rule {
    Rule(None, [Match(Some(RootPath()), Some([HeaderMatch("x-forwarded-proto", false, "http")]), None)],
         Some(Redirect("https", 301)), None)
  }

  function ProxyRule(endpoint: string, connector: string): Rule {
    Rule(None, [DefaultMatch()], None, Some([Backend(endpoint, Some(connector))]))
  }

  /** `desired_proxy_rules`, with an empty exemption list meaning none. */
  function DesiredRules(endpoint: string, connector: string, exempt: seq<Match>): seq<Rule> {
    var base := ProxyRule(endpoint, connector);
    if exempt == [] then [HttpsRedirectRule(), base]
    else [HttpsRedirectRule(),
          base.(name := Some(WAF_EXEMPT_RULE_NAME), matches := exempt),
          base.(name := Some(WAF_PROTECTED_RULE_NAME))]
  }

  // ---- Reading back ----

  function Backends(rules: seq<Rule>): seq<Backend> {
    if rules == [] then []
    else (if rules[0].backends.Some? then rules[0].backends.value else []) + Backends(rules[1..])
  }

  function FirstConnector(backends: seq<Backend>): Option<string> {
    if backends == [] then None
    else if backends[0].connector.Some? then backends[0].connector
    else FirstConnector(backends[1..])
  }

  /** `proxy_connector_name`. */
  function ConnectorName(rules: seq<Rule>): Option<string> {
    FirstConnector(Backends(rules))
  }

  /** Nothing is read if no backend names a connector, else what the first one
      that names any names. */
  lemma {:induction false} ConnectorIsFirstNamed(backends: seq<Backend>)
    ensures FirstConnector(backends).None? <==> forall i | 0 <= i < |backends| :: backends[i].connector.None?
    ensures FirstConnector(backends).Some? ==> exists i | 0 <= i < |backends| ::
      backends[i].connector == FirstConnector(backends) && forall j | 0 <= j < i :: backends[j].connector.None?
  {
    if backends != [] && backends[0].connector.None? {
      ConnectorIsFirstNamed(backends[1..]);
      assert forall i | 1 <= i < |backends| :: backends[i] == backends[1..][i - 1];
      if FirstConnector(backends).Some? {
        var i :| 0 <= i < |backends[1..]| && backends[1..][i].connector == FirstConnector(backends[1..])
          && forall j | 0 <= j < i :: backends[1..][j].connector.None?;
        assert backends[i + 1].connector == FirstConnector(backends);
        forall j | 0 <= j < i + 1 ensures backends[j].connector.None? {
          assert j > 0 ==> backends[j] == backends[1..][j - 1];
        }
      }
    }
  }

  /** Every backend of every rule is looked at, in order. */
  lemma {:induction false} BackendsOfAll(rules: seq<Rule>, i: nat, j: nat)
    requires i < |rules| && rules[i].backends.Some? && j < |rules[i].backends.value|
    ensures rules[i].backends.value[j] in Backends(rules)
  {
    if i > 0 {
      assert rules[1..][i - 1] == rules[i];
      BackendsOfAll(rules[1..], i - 1, j);
    }
  }

  /** `proxy_backend_endpoint`: the first backend of the first rule that has a
      non-empty backend list. */
  function BackendEndpoint(rules: seq<Rule>): Option<string> {
    if rules == [] then None
    else if rules[0].backends.Some? && rules[0].backends.value != [] then Some(rules[0].backends.value[0].endpoint)
    else BackendEndpoint(rules[1..])
  }

  /** Every backend of the rules references connector `c`, and there is one. */
  predicate AllUse(rules: seq<Rule>, c: string) {
    Backends(rules) != [] && forall i | 0 <= i < |Backends(rules)| :: Backends(rules)[i].connector == Some(c)
  }

  lemma DesiredBackends(endpoint: string, connector: string, exempt: seq<Match>)
    ensures Backends(DesiredRules(endpoint, connector, exempt)) ==
      if exempt == [] then [Backend(endpoint, Some(connector))]
      else [Backend(endpoint, Some(connector)), Backend(endpoint, Some(connector))]
  {
    var rules := DesiredRules(endpoint, connector, exempt);
    assert rules[1..][1..] == rules[2..];
    assert Backends(rules) == Backends(rules[1..]);
    assert Backends(rules[1..]) == [Backend(endpoint, Some(connector))] + Backends(rules[2..]);
    if exempt != [] {
      assert rules[2..][1..] == [];
    } else {
      assert rules[2..] == [];
    }
  }

  /** The endpoint and the connector read back from either form are the ones
      written, and every backend names that one connector. */
  lemma ReadBack(endpoint: string, connector: string, exempt: seq<Match>)
    ensures ConnectorName(DesiredRules(endpoint, connector, exempt)) == Some(connector)
    ensures BackendEndpoint(DesiredRules(endpoint, connector, exempt)) == Some(endpoint)
    ensures AllUse(DesiredRules(endpoint, connector, exempt), connector)
  {
    DesiredBackends(endpoint, connector, exempt);
    var rules := DesiredRules(endpoint, connector, exempt);
    assert BackendEndpoint(rules) == BackendEndpoint(rules[1..]);
  }

  // ---- Routing ----

  datatype Request = Request(path: string, headers: map<string, string>, verb: string)

  /** The edge's regular expression engine: pattern, then text. */
  type Engine = (string, string) -> bool

  predicate PrefixMatches(prefix: string, path: string) {
    var p := TrimSlash(prefix);
    path == p || p + "/" <= path
  }

  predicate PathMatches(p: PathMatch, path: string, re: Engine) {
    var value := if p.value.Some? then p.value.value else "/";
    match p.kind
    case Some(Exact) => path == value
    case Some(RegularExpression) => re(value, path)
    case _ => PrefixMatches(value, path)
  }

  predicate HeaderMatches(h: HeaderMatch, headers: map<string, string>, re: Engine) {
    h.name in headers && (if h.regex then re(h.value, headers[h.name]) else headers[h.name] == h.value)
  }

  predicate MatchHolds(m: Match, r: Request, re: Engine) {
    && PathMatches(if m.path.Some? then m.path.value else RootPath(), r.path, re)
    && (m.headers.Some? ==> forall i | 0 <= i < |m.headers.value| :: HeaderMatches(m.headers.value[i], r.headers, re))
    && (m.verb.Some? ==> m.verb.value == r.verb)
  }

  predicate AnyMatch(matches: seq<Match>, r: Request, re: Engine) {
    exists i | 0 <= i < |matches| :: MatchHolds(matches[i], r, re)
  }

  /** The first rule that matches decides. */
  function Landing(rules: seq<Rule>, r: Request, re: Engine): Option<Rule> {
    if rules == [] then None
    else if AnyMatch(rules[0].matches, r, re) then Some(rules[0])
    else Landing(rules[1..], r, re)
  }

  datatype Outcome = Redirected(to: Redirect) | Forwarded(backend: Backend) | Refused

  function OutcomeOf(rule: Option<Rule>): Outcome {
    if rule.None? then Refused
    else if rule.value.redirect.Some? then Redirected(rule.value.redirect.value)
    else if rule.value.backends.Some? && rule.value.backends.value != [] then Forwarded(rule.value.backends.value[0])
    else Refused
  }

  predicate IsHttp(r: Request) {
    "x-forwarded-proto" in r.headers && r.headers["x-forwarded-proto"] == "http"
  }

  lemma RootMatchesAll(r: Request, re: Engine)
    requires r.path != "" && r.path[0] == '/'
    ensures PathMatches(RootPath(), r.path, re)
    ensures AnyMatch([DefaultMatch()], r, re)
    ensures AnyMatch(HttpsRedirectRule().matches, r, re) <==> IsHttp(r)
  {
    assert TrimSlash("/") == "";
    assert MatchHolds([DefaultMatch()][0], r, re);
    var m := HttpsRedirectRule().matches[0];
    assert m.headers.value[0] == HeaderMatch("x-forwarded-proto", false, "http");
    assert IsHttp(r) ==> HeaderMatches(m.headers.value[0], r.headers, re);
    assert MatchHolds(m, r, re) <==> IsHttp(r);
  }

  /** Splitting off a `streams` rule changes no request's outcome: HTTP-marked
      traffic is redirected, everything else reaches the same endpoint over the
      same connector. The split only decides which rule name, and so which
      policy, the traffic passes under. */
  lemma SplitPreservesRouting(endpoint: string, connector: string, exempt: seq<Match>, r: Request, re: Engine)
    requires exempt != [] && r.path != "" && r.path[0] == '/'
    ensures var split := Landing(DesiredRules(endpoint, connector, exempt), r, re);
      var whole := Landing(DesiredRules(endpoint, connector, []), r, re);
      && OutcomeOf(split) == OutcomeOf(whole)
      && OutcomeOf(split) == (if IsHttp(r) then Redirected(Redirect("https", 301))
                              else Forwarded(Backend(endpoint, Some(connector))))
      && split.Some?
      && (IsHttp(r) || split.value.name ==
            Some(if AnyMatch(exempt, r, re) then WAF_EXEMPT_RULE_NAME else WAF_PROTECTED_RULE_NAME))
  {
    RootMatchesAll(r, re);
    var rules, plain := DesiredRules(endpoint, connector, exempt), DesiredRules(endpoint, connector, []);
    assert plain[1..][0] == plain[1] && rules[1..][0] == rules[1] && rules[1..][1..] == rules[2..];
    assert Landing(plain[1..], r, re) == Some(plain[1]);
    assert Landing(rules[2..], r, re) == Some(rules[2]);
    assert Landing(rules[1..], r, re) == if AnyMatch(exempt, r, re) then Some(rules[1]) else Some(rules[2]);
  }
}
