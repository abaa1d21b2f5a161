/**
  The tunnel service: whole operations built from single API calls, any of
  which may fail and end its operation there.
 */
module TunnelService {
  import opened Text
  import opened Rules
  import opened Json
  import opened ProxyJson
  import opened ControlPlane

  /** Some connector carries this identity. */
  predicate Known(connectors: map<string, Connector>, key: string) {
    exists n | n in connectors :: connectors[n].key == Some(key)
  }

  /** At most one connector carries this identity. */
  predicate Unique(connectors: map<string, Connector>, key: string) {
    forall m, n | m in connectors && n in connectors ::
      connectors[m].key == Some(key) && connectors[n].key == Some(key) ==> m == n
  }

  /** The same connectors, with the same identities. */
  predicate SameIdentities(a: map<string, Connector>, b: map<string, Connector>) {
    a.Keys == b.Keys && forall n | n in a :: b[n].key == a[n].key
  }

  /** Names of connectors that went away between the two maps are used by no
      live proxy. */
  predicate OnlyUnusedGone(before: map<string, Connector>, after: map<string, Connector>, proxies: map<string, Proxy>) {
    && (forall c | c in before && c !in after :: Unreferenced(proxies, c))
    && (forall c | c in after :: c in before && after[c] == before[c])
  }

  /** No advertisement names the connector. */
  predicate NoAds(ads: map<string, Advertisement>, connector: string) {
    forall a | a in ads :: ads[a].connector != connector
  }

  /** Connector names referenced by proxies that are not being deleted. */
  function Referenced(proxies: map<string, Proxy>): set<string> {
    set id | id in proxies && !proxies[id].deleting && ConnectorOf(proxies[id]).Some? :: ConnectorOf(proxies[id]).value
  }

  lemma ReferencedExactly(proxies: map<string, Proxy>, c: string)
    ensures c in Referenced(proxies) <==> !Unreferenced(proxies, c)
  {
  }

  /** Every live written proxy has its one connector. */
  ghost predicate AllWired(st: Store, wrote: set<string>) {
    forall id | id in wrote && id in st.proxies && !st.proxies[id].deleting :: Wired(st.proxies[id], st.connectors.Keys)
  }

  /** What a later point of a run owes to the store it began with. */
  ghost predicate FollowsFrom(st: Store, later: Snapshot) {
    NoneLost(st, later.store) && (Closed(st) ==> Closed(later.store) && AllWired(later.store, later.wrote))
  }

  lemma FollowsByChain(st: Store, later: Snapshot)
    requires NoneLost(st, later.store) && Intact(later.store, later.wrote)
    ensures FollowsFrom(st, later)
  {
    IntactIsWired(later.store, later.wrote);
    if Closed(st) {
      NoneLostKeepsClosed(st, later.store);
    }
  }

  predicate Fetchable(proxies: map<string, Proxy>, id: string) {
    id in proxies && Readable(proxies[id])
  }

  datatype Op =
    | Create(name: string, display: string, endpoint: string, generated: string)
    | Update(id: string, display: string, endpoint: string, generated: string)
    | Retarget(id: string, endpoint: string, generated: string)
    | SetEnabled(id: string, enabled: bool, generated: string)
    | Delete(id: string)
    | Cleanup

  class Service {
    const api: Api
    const key: string                        // this node's endpoint id
    const exempt: seq<Match>                 // empty when there is no exemption
    const parse: string -> Option<Target>    // `parse_target`
    var details: Option<string>              // connection details the node has at the moment

    constructor (api: Api, key: string, exempt: seq<Match>, parse: string -> Option<Target>)
      ensures this.api == api && this.key == key && this.exempt == exempt && this.parse == parse
    {
      this.api, this.key, this.exempt, this.parse, details := api, key, exempt, parse, None;
    }

    /** The connector is there, or its generated name is free. */
    predicate CanConnect(connectors: map<string, Connector>, generated: string) {
      Known(connectors, key) || generated !in connectors
    }

    /** `find_connector`: any connector with this identity. */
    method FindConnector() returns (ok: bool, found: Option<string>)
      modifies api`faults
      ensures api.faults >= old(api.faults) && (ok <==> api.faults == old(api.faults))
      ensures ok ==> (found.Some? <==> Known(api.store.connectors, key))
      ensures found.Some? ==> found.value in api.store.connectors && api.store.connectors[found.value].key == Some(key)
    {
      var failed := api.Fails();
      if failed {
        return false, None;
      }
      ok, found := true, None;
      if Known(api.store.connectors, key) {
        var n :| n in api.store.connectors && api.store.connectors[n].key == Some(key);
        found := Some(n);
      }
    }

    /** `ensure_connector`: reuse or create; `generated` is the server's pick
        for a new name. */
    method EnsureConnector(generated: string) returns (conn: Option<string>)
      requires api.Valid()
      modifies api
      ensures api.Valid() && old(api.trail) <= api.trail && api.patches == old(api.patches)
      ensures api.wrote == old(api.wrote)
      ensures api.store.proxies == old(api.store).proxies && api.store.ads == old(api.store).ads
      ensures old(api.store).connectors.Keys <= api.store.connectors.Keys
      ensures conn.Some? ==> conn.value in api.store.connectors
      ensures Known(old(api.store).connectors, key) && conn.Some? ==> (conn.value in old(api.store).connectors
        && old(api.store).connectors[conn.value].key == Some(key))
      ensures Known(old(api.store).connectors, key) ==> SameIdentities(old(api.store).connectors, api.store.connectors)
      ensures api.faults >= old(api.faults)
      ensures api.faults == old(api.faults) ==> (conn.Some? <==> CanConnect(old(api.store).connectors, generated))
      ensures api.faults == old(api.faults) && conn.Some? && details.Some? ==>
        api.store.connectors[conn.value] == Connector(Some(key), details)
    {
      conn := None;
      var ok, found := FindConnector();
      if !ok {
        return;
      }
      if found.Some? {
        if details.Some? {
          api.PatchConnectorStatus(found.value, key, details.value);
        }
        return found;
      }
      var created := api.CreateConnector(generated);
      if !created {
        return;
      }
      if details.Some? {
        api.PatchConnectorStatus(generated, key, details.value);
      }
      conn := Some(generated);
    }

    /** Patch the proxy unless it already carries the desired state. */
    method Reconcile(id: string, p: Proxy, display: string, endpoint: string, connector: string) returns (ok: bool)
      requires api.Valid() && id in api.store.proxies && api.store.proxies[id] == p
      requires connector in api.store.connectors || ConnectorOf(p) == Some(connector)
      modifies api
      ensures api.Valid() && old(api.trail) <= api.trail
      ensures api.store.connectors == old(api.store).connectors && api.store.ads == old(api.store).ads
      ensures SameExcept(old(api.store).proxies, api.store.proxies, id) && id in api.store.proxies
      ensures api.patches == old(api.patches) +
        (if SpecMatches(p, display, DesiredRules(endpoint, connector, exempt)) then 0 else 1)
      ensures SpecMatches(p, display, DesiredRules(endpoint, connector, exempt)) ==> api.store.proxies == old(api.store).proxies
      ensures ok ==> SpecMatches(api.store.proxies[id], display, DesiredRules(endpoint, connector, exempt))
      ensures api.store.proxies[id].deleting == p.deleting
      ensures api.store.proxies[id] == p || SpecMatches(api.store.proxies[id], display, DesiredRules(endpoint, connector, exempt))
      ensures api.faults >= old(api.faults)
      ensures api.faults == old(api.faults) ==> ok
    {
      if SpecMatches(p, display, DesiredRules(endpoint, connector, exempt)) {
        return true;
      }
      WritingRulesWires(p, display, endpoint, connector, exempt, api.store.connectors.Keys);
      ok := api.PatchProxy(id, display, endpoint, connector, exempt);
    }

    /** `create_project`, up to the advertisement. */
    method CreateTunnel(name: string, display: string, endpoint: string, generated: string) returns (ok: bool)
      requires api.Valid()
      modifies api
      ensures api.Valid() && old(api.trail) <= api.trail && api.patches == old(api.patches)
      ensures old(api.store).connectors.Keys <= api.store.connectors.Keys
      ensures name in old(api.store).proxies ==> !ok
      ensures SameExcept(old(api.store).proxies, api.store.proxies, name)
      ensures ok ==> (name in api.store.proxies && name in api.wrote && EndpointOf(api.store.proxies[name]) == Normalize(endpoint)
        && Wired(api.store.proxies[name], api.store.connectors.Keys) && LabelOf(api.store.proxies[name], name) == display)
      ensures ok ==> (name in api.store.ads && Some(api.store.ads[name].connector) == ConnectorOf(api.store.proxies[name])
        && Some(api.store.ads[name].target) == parse(Normalize(endpoint)))
      ensures api.faults >= old(api.faults)
      ensures api.faults == old(api.faults) ==> (ok <==> (parse(Normalize(endpoint)).Some?
        && CanConnect(old(api.store).connectors, generated) && name !in old(api.store).proxies && name !in old(api.store).ads))
    {
      ok := false;
      var e := Normalize(endpoint);
      var target := parse(e);
      if target.None? {
        return;
      }
      var conn := EnsureConnector(generated);
      if conn.None? {
        return;
      }
      WritingRulesWires(Proxy(Null, false), display, e, conn.value, exempt, api.store.connectors.Keys);
      NormalizeIdempotent(endpoint);
      var created := api.CreateProxy(name, display, e, conn.value, exempt);
      if !created || name in api.store.ads {
        return;
      }
      ok := api.PutAd(name, Advertisement(conn.value, target.value));
    }

    /** Bring an existing advertisement to `ad`; one that is absent stays so. */
    method RefreshAd(id: string, connector: Option<string>, target: Target) returns (ok: bool)
      requires api.Valid()
      modifies api
      ensures api.Valid() && old(api.trail) <= api.trail && api.patches == old(api.patches)
      ensures api.wrote == old(api.wrote)
      ensures api.store.proxies == old(api.store).proxies && api.store.connectors == old(api.store).connectors
      ensures id in api.store.ads <==> id in old(api.store).ads
      ensures id in api.store.ads ==> (ok ==> api.store.ads[id].target == target)
      ensures id in api.store.ads && connector.None? ==> api.store.ads[id].connector == old(api.store).ads[id].connector
      ensures id in api.store.ads && connector.Some? && ok ==> api.store.ads[id].connector == connector.value
      ensures api.faults >= old(api.faults)
      ensures api.faults == old(api.faults) ==> ok
    {
      var failed := api.Fails();
      if failed || id !in api.store.ads {
        return !failed;
      }
      var want := Advertisement(if connector.Some? then connector.value else api.store.ads[id].connector, target);
      ok := true;
      if api.store.ads[id] != want {
        ok := api.PutAd(id, want);
      }
    }

    /** `update_project`. On success the proxy carries exactly what was asked
        on this service's connector; if it already did, nothing is patched. */
    method UpdateTunnel(id: string, display: string, endpoint: string, generated: string) returns (ok: bool, conn: Option<string>)
      requires api.Valid()
      modifies api
      ensures api.Valid() && old(api.trail) <= api.trail
      ensures old(api.store).connectors.Keys <= api.store.connectors.Keys
      ensures Known(old(api.store).connectors, key) ==> SameIdentities(old(api.store).connectors, api.store.connectors)
      ensures Known(old(api.store).connectors, key) && conn.Some? ==> (conn.value in old(api.store).connectors
        && old(api.store).connectors[conn.value].key == Some(key))
      ensures SameExcept(old(api.store).proxies, api.store.proxies, id)
      ensures id in api.store.proxies <==> id in old(api.store).proxies
      ensures ok ==> id in api.store.proxies && conn.Some? && conn.value in api.store.connectors
      ensures ok ==> SpecMatches(api.store.proxies[id], display, DesiredRules(Normalize(endpoint), conn.value, exempt))
      ensures ok && id in api.store.ads ==> Some(api.store.ads[id].target) == parse(Normalize(endpoint)) && api.store.ads[id].connector == conn.value
      ensures id in old(api.store).proxies && conn.Some? && SpecMatches(old(api.store).proxies[id], display, DesiredRules(Normalize(endpoint), conn.value, exempt))
        ==> api.patches == old(api.patches) && api.store.proxies == old(api.store).proxies
      ensures api.patches <= old(api.patches) + 1
      ensures conn.None? ==> api.store.proxies == old(api.store).proxies && api.patches == old(api.patches)
      ensures api.faults >= old(api.faults)
      ensures api.faults == old(api.faults) ==> (ok <==> (parse(Normalize(endpoint)).Some?
        && CanConnect(old(api.store).connectors, generated) && Fetchable(old(api.store).proxies, id)))
      ensures id in api.store.proxies ==> api.store.proxies[id].deleting == old(api.store).proxies[id].deleting
    {
      ok, conn := false, None;
      var e := Normalize(endpoint);
      var target := parse(e);
      if target.None? {
        return;
      }
      conn := EnsureConnector(generated);
      if conn.None? {
        return;
      }
      ok := UpdateOn(id, display, e, conn.value, target.value);
    }

    /** Bring an existing proxy and its advertisement to the desired state on
        `connector`. */
    method UpdateOn(id: string, display: string, endpoint: string, connector: string, target: Target) returns (ok: bool)
      requires api.Valid() && connector in api.store.connectors
      modifies api
      ensures api.Valid() && old(api.trail) <= api.trail && api.store.connectors == old(api.store).connectors
      ensures SameExcept(old(api.store).proxies, api.store.proxies, id)
      ensures id in api.store.proxies <==> id in old(api.store).proxies
      ensures id in api.store.proxies ==> api.store.proxies[id].deleting == old(api.store).proxies[id].deleting
      ensures ok ==> id in api.store.proxies && SpecMatches(api.store.proxies[id], display, DesiredRules(endpoint, connector, exempt))
      ensures ok && id in api.store.ads ==> api.store.ads[id] == Advertisement(connector, target)
      ensures id in old(api.store).proxies && SpecMatches(old(api.store).proxies[id], display, DesiredRules(endpoint, connector, exempt))
        ==> api.patches == old(api.patches) && api.store.proxies == old(api.store).proxies
      ensures api.patches <= old(api.patches) + 1
      ensures api.faults >= old(api.faults)
      ensures api.faults == old(api.faults) ==> (ok <==> Fetchable(old(api.store).proxies, id))
    {
      ok := false;
      var p := api.FetchProxy(id);
      if p.None? {
        return;
      }
      var done := Reconcile(id, p.value, display, endpoint, connector);
      if !done {
        return;
      }
      ok := RefreshAd(id, Some(connector), target);
    }

    /** `retarget_project`: the endpoint moves, connector and label do not. */
    method RetargetTunnel(id: string, endpoint: string, generated: string) returns (ok: bool)
      requires api.Valid()
      modifies api
      ensures api.Valid() && old(api.trail) <= api.trail
      ensures old(api.store).connectors.Keys <= api.store.connectors.Keys
      ensures SameExcept(old(api.store).proxies, api.store.proxies, id)
      ensures id in api.store.proxies <==> id in old(api.store).proxies
      ensures ok ==> id in api.store.proxies && EndpointOf(api.store.proxies[id]) == Normalize(endpoint)
      ensures id in api.store.proxies ==> api.store.proxies[id].deleting == old(api.store).proxies[id].deleting
      ensures id in api.store.proxies && ConnectorOf(old(api.store).proxies[id]).Some? ==> (
        && ConnectorOf(api.store.proxies[id]) == ConnectorOf(old(api.store).proxies[id])
        && LabelOf(api.store.proxies[id], id) == LabelOf(old(api.store).proxies[id], id)
        && api.store.connectors == old(api.store).connectors)
      ensures ok ==> Pointed(api.store.proxies[id], id, endpoint)
      ensures id in old(api.store).proxies && Pointed(old(api.store).proxies[id], id, endpoint) ==>
        api.patches == old(api.patches) && api.store.proxies == old(api.store).proxies
      ensures id in api.store.ads && id in old(api.store).ads && id in old(api.store).proxies && ConnectorOf(old(api.store).proxies[id]).Some? ==>
        api.store.ads[id].connector == old(api.store).ads[id].connector
      ensures api.faults >= old(api.faults)
      ensures api.faults == old(api.faults) ==> (ok <==> (parse(Normalize(endpoint)).Some? && Fetchable(old(api.store).proxies, id)
        && (ConnectorOf(old(api.store).proxies[id]).Some? || CanConnect(old(api.store).connectors, generated))))
    {
      ok := false;
      var e := Normalize(endpoint);
      var target := parse(e);
      if target.None? {
        return;
      }
      var p := api.FetchProxy(id);
      if p.None? {
        return;
      }
      NormalizeIdempotent(endpoint);
      var c, display := ConnectorOf(p.value), LabelOf(p.value, id);
      if c.None? {
        var done, conn := UpdateTunnel(id, display, e, generated);
        if done {
          MatchingCarries(api.store.proxies[id], display, e, conn.value, exempt);
        }
        return done;
      }
      var done := Reconcile(id, p.value, display, e, c.value);
      if api.store.proxies[id] != p.value || done {
        MatchingCarries(api.store.proxies[id], display, e, c.value, exempt);
      }
      if !done {
        return;
      }
      ok := RefreshAd(id, None, target.value);
    }

    /** The proxy already carries what a retarget to `endpoint` would write. */
    predicate Pointed(p: Proxy, id: string, endpoint: string) {
      var c := ConnectorOf(p);
      c.Some? && SpecMatches(p, LabelOf(p, id), DesiredRules(Normalize(endpoint), c.value, exempt))
    }

    method EnableTunnel(id: string, p: Proxy, generated: string) returns (ok: bool, conn: Option<string>)
      requires api.Valid() && id in api.store.proxies && api.store.proxies[id] == p
      modifies api
      ensures api.Valid() && old(api.trail) <= api.trail
      ensures old(api.store).connectors.Keys <= api.store.connectors.Keys
      ensures Known(old(api.store).connectors, key) && conn.Some? ==> (conn.value in old(api.store).connectors
        && old(api.store).connectors[conn.value].key == Some(key))
      ensures Known(old(api.store).connectors, key) ==> SameIdentities(old(api.store).connectors, api.store.connectors)
      ensures conn.None? ==> api.patches == old(api.patches)
      ensures SameExcept(old(api.store).proxies, api.store.proxies, id) && id in api.store.proxies
      ensures EndpointOf(api.store.proxies[id]) == EndpointOf(p) && LabelOf(api.store.proxies[id], id) == LabelOf(p, id)
      ensures ok ==> (conn.Some? && Enabled(api.store.proxies[id], id, conn.value)
        && Wired(api.store.proxies[id], api.store.connectors.Keys) && id in api.store.ads && api.store.ads[id].connector == conn.value
        && Some(api.store.ads[id].target) == parse(EndpointOf(p)))
      ensures conn.Some? && Enabled(p, id, conn.value) ==>
        api.patches == old(api.patches) && api.store.proxies == old(api.store).proxies
      ensures api.faults >= old(api.faults)
      ensures api.faults == old(api.faults) ==> (ok <==> CanConnect(old(api.store).connectors, generated) && parse(EndpointOf(p)).Some?)
    {
      ok, conn := false, None;
      conn := EnsureConnector(generated);
      if conn.None? {
        return;
      }
      var target := parse(EndpointOf(p));
      if target.None? {
        return;
      }
      ok := EnableOn(id, p, conn.value, target.value);
    }

    /** Move the proxy onto `connector`, endpoint and label kept, and advertise. */
    method EnableOn(id: string, p: Proxy, connector: string, target: Target) returns (ok: bool)
      requires api.Valid() && id in api.store.proxies && api.store.proxies[id] == p && connector in api.store.connectors
      modifies api
      ensures api.Valid() && old(api.trail) <= api.trail
      ensures api.store.connectors == old(api.store).connectors
      ensures SameExcept(old(api.store).proxies, api.store.proxies, id) && id in api.store.proxies
      ensures EndpointOf(api.store.proxies[id]) == EndpointOf(p) && LabelOf(api.store.proxies[id], id) == LabelOf(p, id)
      ensures ok ==> (Enabled(api.store.proxies[id], id, connector) && Wired(api.store.proxies[id], api.store.connectors.Keys)
        && id in api.store.ads && api.store.ads[id] == Advertisement(connector, target))
      ensures Enabled(p, id, connector) ==> api.patches == old(api.patches) && api.store.proxies == old(api.store).proxies
      ensures api.faults >= old(api.faults)
      ensures api.faults == old(api.faults) ==> ok
    {
      var done := MoveOnto(id, p, connector);
      var failed := api.Fails();
      if !done || failed {
        return false;
      }
      ok := api.PutAd(id, Advertisement(connector, target));
    }

    /** Write back the endpoint and label read, on `connector`. */
    method MoveOnto(id: string, p: Proxy, connector: string) returns (ok: bool)
      requires api.Valid() && id in api.store.proxies && api.store.proxies[id] == p && connector in api.store.connectors
      modifies api
      ensures api.Valid() && old(api.trail) <= api.trail
      ensures api.store.connectors == old(api.store).connectors
      ensures SameExcept(old(api.store).proxies, api.store.proxies, id) && id in api.store.proxies
      ensures EndpointOf(api.store.proxies[id]) == EndpointOf(p) && LabelOf(api.store.proxies[id], id) == LabelOf(p, id)
      ensures ok ==> Enabled(api.store.proxies[id], id, connector) && Wired(api.store.proxies[id], api.store.connectors.Keys)
      ensures Enabled(p, id, connector) ==> api.patches == old(api.patches) && api.store.proxies == old(api.store).proxies
      ensures api.faults >= old(api.faults) && (api.faults == old(api.faults) ==> ok)
    {
      ok := Reconcile(id, p, LabelOf(p, id), EndpointOf(p), connector);
      if api.store.proxies[id] != p || ok {
        EnableCarries(this, p, api.store.proxies[id], id, connector);
      }
    }

    /** `set_enabled_project`: enabling moves the proxy onto this service's
        connector and advertises it, without moving its endpoint; disabling
        only withdraws the advertisement. */
    method SetEnabledTunnel(id: string, enabled: bool, generated: string) returns (ok: bool, conn: Option<string>)
      requires api.Valid()
      modifies api
      ensures api.Valid() && old(api.trail) <= api.trail
      ensures old(api.store).connectors.Keys <= api.store.connectors.Keys
      ensures Known(old(api.store).connectors, key) && conn.Some? ==> (conn.value in old(api.store).connectors
        && old(api.store).connectors[conn.value].key == Some(key))
      ensures Known(old(api.store).connectors, key) ==> SameIdentities(old(api.store).connectors, api.store.connectors)
      ensures conn.None? ==> api.patches == old(api.patches)
      ensures SameExcept(old(api.store).proxies, api.store.proxies, id)
      ensures id in api.store.proxies <==> id in old(api.store).proxies
      ensures id in api.store.proxies ==> EndpointOf(api.store.proxies[id]) == EndpointOf(old(api.store).proxies[id])
      ensures id in api.store.proxies ==> LabelOf(api.store.proxies[id], id) == LabelOf(old(api.store).proxies[id], id)
      ensures ok ==> id in api.store.proxies
      ensures ok ==> (id in api.store.ads <==> enabled)
      ensures !enabled ==> (api.store.proxies == old(api.store).proxies && api.patches == old(api.patches)
        && api.store.connectors == old(api.store).connectors && conn.None?)
      ensures ok && enabled ==> (conn.Some? && Enabled(api.store.proxies[id], id, conn.value)
        && Wired(api.store.proxies[id], api.store.connectors.Keys) && api.store.ads[id].connector == conn.value
        && Some(api.store.ads[id].target) == parse(EndpointOf(api.store.proxies[id])))
      ensures id in old(api.store).proxies && conn.Some? && Enabled(old(api.store).proxies[id], id, conn.value) ==>
        api.patches == old(api.patches) && api.store.proxies == old(api.store).proxies
      ensures api.faults >= old(api.faults)
      ensures api.faults == old(api.faults) ==> (ok <==> Fetchable(old(api.store).proxies, id) && (enabled ==>
        CanConnect(old(api.store).connectors, generated) && parse(EndpointOf(old(api.store).proxies[id])).Some?))
    {
      ok, conn := false, None;
      var p := api.FetchProxy(id);
      if p.None? {
        return;
      }
      if !enabled {
        var failed := api.Fails();
        if failed {
          return;
        }
        ok := true;
        if id in api.store.ads {
          ok := api.DeleteAd(id);
        }
        return;
      }
      ok, conn := EnableTunnel(id, p.value, generated);
    }

    /** The proxy already carries what enabling it on `connector` would write. */
    predicate Enabled(p: Proxy, id: string, connector: string) {
      SpecMatches(p, LabelOf(p, id), DesiredRules(EndpointOf(p), connector, exempt))
    }

    /** Delete the advertisements of one connector; failures only warn. */
    method DeleteAdsOf(connector: string)
      requires api.Valid()
      modifies api
      ensures api.Valid() && old(api.trail) <= api.trail && api.patches == old(api.patches)
      ensures api.wrote == old(api.wrote)
      ensures api.store.proxies == old(api.store).proxies && api.store.connectors == old(api.store).connectors
      ensures forall a | a in api.store.ads :: a in old(api.store).ads && api.store.ads[a] == old(api.store).ads[a]
      ensures forall a | a in old(api.store).ads && old(api.store).ads[a].connector != connector :: a in api.store.ads
      ensures api.faults >= old(api.faults)
      ensures api.faults == old(api.faults) ==> NoAds(api.store.ads, connector)
    {
      var before := api.store.ads;
      var rest := set a | a in before && before[a].connector == connector;
      while rest != {}
        invariant api.Valid() && old(api.trail) <= api.trail && api.patches == old(api.patches)
        invariant api.wrote == old(api.wrote)
        invariant api.store.proxies == old(api.store).proxies && api.store.connectors == old(api.store).connectors
        invariant forall a | a in rest :: a in before && before[a].connector == connector
        invariant forall a | a in api.store.ads :: a in before && api.store.ads[a] == before[a]
        invariant forall a | a in before && before[a].connector != connector :: a in api.store.ads
        invariant api.faults >= old(api.faults)
        invariant api.faults == old(api.faults) ==> forall a | a in api.store.ads && before[a].connector == connector :: a in rest
        decreases |rest|
      {
        var a :| a in rest;
        var _ := api.DeleteAd(a);
        rest := rest - {a};
      }
    }

    /** `delete_connector_if_unused`. */
    method DeleteConnectorIfUnused(name: string) returns (ok: bool, gone: Option<string>)
      requires api.Valid()
      modifies api
      ensures api.Valid() && old(api.trail) <= api.trail && api.patches == old(api.patches)
      ensures api.wrote == old(api.wrote)
      ensures api.store.proxies == old(api.store).proxies
      ensures OnlyUnusedGone(old(api.store).connectors, api.store.connectors, api.store.proxies)
      ensures forall a | a in api.store.ads :: a in old(api.store).ads
      ensures ok ==> name !in api.store.connectors || !Unreferenced(api.store.proxies, name)
      ensures gone.Some? ==> gone.value == name && name in old(api.store).connectors && name !in api.store.connectors
      ensures gone.None? && ok ==> api.store.connectors == old(api.store).connectors
      ensures gone.Some? && api.faults == old(api.faults) ==> NoAds(api.store.ads, name)
      ensures api.faults >= old(api.faults)
      ensures api.faults == old(api.faults) ==> ok
    {
      ok, gone := false, None;
      var failed := api.Fails();
      if failed {
        return;
      }
      if !Unreferenced(api.store.proxies, name) {
        return true, None;
      }
      failed := api.Fails();
      if failed {
        return;
      }
      DeleteAdsOf(name);
      failed := api.Fails();
      if failed {
        return;
      }
      if name !in api.store.connectors {
        return true, None;
      }
      ok := api.DeleteConnector(name);
      gone := if ok then Some(name) else None;
    }

    /** Delete the tunnel's proxy, then its advertisement. */
    method Withdraw(id: string) returns (ok: bool)
      requires api.Valid()
      modifies api
      ensures api.Valid() && old(api.trail) <= api.trail && api.patches == old(api.patches)
      ensures api.wrote == old(api.wrote)
      ensures SameExcept(old(api.store).proxies, api.store.proxies, id)
      ensures api.store.connectors == old(api.store).connectors
      ensures ok ==> (id !in api.store.proxies || api.store.proxies[id].deleting) && id !in api.store.ads
      ensures api.faults >= old(api.faults)
      ensures api.faults == old(api.faults) ==> ok
    {
      ok := true;
      if id in api.store.proxies {
        ok := api.DeleteProxy(id);
      }
      var failed := api.Fails();
      if !ok || failed {
        return false;
      }
      if id in api.store.ads {
        ok := api.DeleteAd(id);
      }
    }

    /** `delete_project`: the tunnel's proxy and advertisement go, and its
        connector with them unless another live proxy uses it. */
    method DeleteTunnel(id: string) returns (ok: bool, gone: Option<string>)
      requires api.Valid()
      modifies api
      ensures api.Valid() && old(api.trail) <= api.trail && api.patches == old(api.patches)
      ensures api.wrote == old(api.wrote)
      ensures SameExcept(old(api.store).proxies, api.store.proxies, id)
      ensures OnlyUnusedGone(old(api.store).connectors, api.store.connectors, api.store.proxies)
      ensures ok ==> (id !in api.store.proxies || api.store.proxies[id].deleting) && id !in api.store.ads
      ensures ok && id in old(api.store).proxies && ConnectorOf(old(api.store).proxies[id]).Some? ==>
        var c := ConnectorOf(old(api.store).proxies[id]).value;
        c !in api.store.connectors || !Unreferenced(api.store.proxies, c)
      ensures api.faults >= old(api.faults)
      ensures api.faults == old(api.faults) ==> (ok <==> (id in old(api.store).proxies ==> Readable(old(api.store).proxies[id])))
    {
      ok, gone := false, None;
      var failed := api.Fails();
      if failed || (id in api.store.proxies && !Readable(api.store.proxies[id])) {
        return;
      }
      var conn := if id in api.store.proxies then ConnectorOf(api.store.proxies[id]) else None;
      if conn.None? {
        var found;
        found, conn := FindConnector();
        if !found {
          return;
        }
      }
      failed := api.Fails();
      if failed {
        return;
      }
      var done := Withdraw(id);
      if !done {
        return;
      }
      failed := api.Fails();
      if failed {
        return;
      }
      ok := true;
      if conn.Some? {
        ok, gone := DeleteConnectorIfUnused(conn.value);
      }
    }

    /** Delete a connector no live proxy uses, its advertisements first. */
    method DropOrphan(c: string) returns (done: bool)
      requires api.Valid() && Unreferenced(api.store.proxies, c)
      modifies api
      ensures api.Valid() && old(api.trail) <= api.trail && api.patches == old(api.patches)
      ensures api.wrote == old(api.wrote)
      ensures api.store.proxies == old(api.store).proxies
      ensures api.store.connectors == old(api.store).connectors || api.store.connectors == old(api.store).connectors - {c}
      ensures done ==> c !in api.store.connectors
      ensures forall a | a in api.store.ads :: a in old(api.store).ads && api.store.ads[a] == old(api.store).ads[a]
      ensures api.faults >= old(api.faults) && (api.faults == old(api.faults) ==> done && NoAds(api.store.ads, c))
    {
      var failed := api.Fails();
      if !failed {
        DeleteAdsOf(c);
      }
      done := api.DeleteConnector(c);
    }

    /** `cleanup_orphaned_connectors_project`: the proxies are listed once, the
        connectors walked in any order. */
    method CleanupOrphans() returns (ok: bool, deleted: seq<string>)
      requires api.Valid()
      modifies api
      ensures api.Valid() && old(api.trail) <= api.trail && api.patches == old(api.patches)
      ensures api.wrote == old(api.wrote)
      ensures api.store.proxies == old(api.store).proxies
      ensures OnlyUnusedGone(old(api.store).connectors, api.store.connectors, api.store.proxies)
      ensures forall i | 0 <= i < |deleted| :: deleted[i] in old(api.store).connectors && deleted[i] !in api.store.connectors
      ensures api.faults >= old(api.faults)
      ensures api.faults == old(api.faults) ==> ok && forall c | c in api.store.connectors :: !Unreferenced(api.store.proxies, c)
      ensures api.faults == old(api.faults) ==> forall i | 0 <= i < |deleted| :: NoAds(api.store.ads, deleted[i])
    {
      ok, deleted := false, [];
      var failed := api.Fails();
      if failed {
        return;
      }
      var referenced := Referenced(api.store.proxies);
      failed := api.Fails();
      if failed {
        return;
      }
      var before := api.store.connectors;
      var rest := before.Keys;
      while rest != {}
        invariant api.Valid() && old(api.trail) <= api.trail && api.patches == old(api.patches)
        invariant api.wrote == old(api.wrote)
        invariant api.store.proxies == old(api.store).proxies
        invariant rest <= before.Keys
        invariant OnlyUnusedGone(before, api.store.connectors, api.store.proxies)
        invariant forall i | 0 <= i < |deleted| :: deleted[i] in before && deleted[i] !in api.store.connectors
        invariant api.faults >= old(api.faults)
        invariant api.faults == old(api.faults) ==> forall c | c in api.store.connectors && c !in rest :: !Unreferenced(api.store.proxies, c)
        invariant api.faults == old(api.faults) ==> forall i | 0 <= i < |deleted| :: NoAds(api.store.ads, deleted[i])
        decreases |rest|
      {
        var c :| c in rest;
        rest := rest - {c};
        ReferencedExactly(api.store.proxies, c);
        if c in referenced {
          continue;
        }
        var done := DropOrphan(c);
        if done {
          deleted := deleted + [c];
        }
      }
      ok := true;
    }

    // ---- Sequences of operations ----

    /** Any run of operations, whatever fails. After every single API call (the
        trail) each live written proxy has one connector on all its backends,
        and a live proxy without its connector was without it, and live, before
        the run; so in a store that was closed every live written proxy has its
        connector after every call. */
    method Serve(ops: seq<Op>)
      requires api.Valid()
      modifies api
      ensures api.Valid() && old(api.trail) <= api.trail
      ensures NoneLost(old(api.store), api.store)
      ensures forall i | |old(api.trail)| <= i < |api.trail| :: NoneLost(old(api.store), api.trail[i].store)
      ensures Closed(old(api.store)) ==> Closed(api.store)
      ensures Closed(old(api.store)) ==> forall i | |old(api.trail)| <= i < |api.trail| ::
        Closed(api.trail[i].store) && AllWired(api.trail[i].store, api.trail[i].wrote)
    {
      ghost var start := |api.trail| - 1;
      for i := 0 to |ops|
        invariant api.Valid() && old(api.trail) <= api.trail
      {
        match ops[i]
        case Create(name, display, endpoint, generated) => var _ := CreateTunnel(name, display, endpoint, generated);
        case Update(id, display, endpoint, generated) => var _, _ := UpdateTunnel(id, display, endpoint, generated);
        case Retarget(id, endpoint, generated) => var _ := RetargetTunnel(id, endpoint, generated);
        case SetEnabled(id, enabled, generated) => var _, _ := SetEnabledTunnel(id, enabled, generated);
        case Delete(id) => var _, _ := DeleteTunnel(id);
        case Cleanup => var _, _ := CleanupOrphans();
      }
      assert api.trail[start].store == old(api.store);
      forall i | start <= i < |api.trail| ensures FollowsFrom(old(api.store), api.trail[i]) {
        ChainNoneLost(api.trail, start, i, |api.trail|);
        FollowsByChain(old(api.store), api.trail[i]);
      }
    }

    /** `sent` and `resent` count all HTTPProxy patches after the first and the
        second call. With one connector for this identity the two calls agree
        on it, so repeating an update never patches. */
    method UpdateTwice(id: string, display: string, endpoint: string, g1: string, g2: string)
      returns (ok: bool, first: Option<string>, second: Option<string>, sent: nat, resent: nat)
      requires api.Valid()
      modifies api
      ensures ok && second == first ==> resent == sent
      ensures ok && Known(old(api.store).connectors, key) && Unique(old(api.store).connectors, key) ==> resent == sent
    {
      ok, first := UpdateTunnel(id, display, endpoint, g1);
      sent := api.patches;
      var again;
      again, second := UpdateTunnel(id, display, endpoint, g2);
      resent := api.patches;
    }

    method EnableTwice(id: string, g1: string, g2: string)
      returns (ok: bool, first: Option<string>, second: Option<string>, sent: nat, resent: nat)
      requires api.Valid()
      modifies api
      ensures ok && second == first ==> resent == sent
      ensures ok && Known(old(api.store).connectors, key) && Unique(old(api.store).connectors, key) ==> resent == sent
    {
      ok, first := SetEnabledTunnel(id, true, g1);
      sent := api.patches;
      var again;
      again, second := SetEnabledTunnel(id, true, g2);
      resent := api.patches;
    }

    /** A retarget names no connector of its own, so its repetition never patches. */
    method RetargetTwice(id: string, endpoint: string, g1: string, g2: string) returns (ok: bool, sent: nat, resent: nat)
      requires api.Valid()
      modifies api
      ensures ok ==> resent == sent
    {
      ok := RetargetTunnel(id, endpoint, g1);
      sent := api.patches;
      var _ := RetargetTunnel(id, endpoint, g2);
      resent := api.patches;
    }

    /** Any sequence of retargets, whatever fails, leaves connector, label and
        the set of connectors as they were, so it neither loses the connector
        nor finds a missing one. */
    method RetargetAll(id: string, endpoints: seq<string>, generated: string)
      requires api.Valid() && id in api.store.proxies && ConnectorOf(api.store.proxies[id]).Some?
      modifies api
      ensures api.Valid() && id in api.store.proxies
      ensures ConnectorOf(api.store.proxies[id]) == old(ConnectorOf(api.store.proxies[id]))
      ensures LabelOf(api.store.proxies[id], id) == old(LabelOf(api.store.proxies[id], id))
      ensures api.store.connectors == old(api.store).connectors
      ensures Loose(api.store, id) <==> Loose(old(api.store), id)
    {
      for i := 0 to |endpoints|
        invariant api.Valid() && id in api.store.proxies
        invariant api.store.proxies[id].deleting == old(api.store.proxies[id].deleting)
        invariant ConnectorOf(api.store.proxies[id]) == old(ConnectorOf(api.store.proxies[id]))
        invariant LabelOf(api.store.proxies[id], id) == old(LabelOf(api.store.proxies[id], id))
        invariant api.store.connectors == old(api.store).connectors
      {
        var _ := RetargetTunnel(id, endpoints[i], generated);
      }
    }
  }

  // ---- What settles what ----

  /** Writing back the endpoint and label read from `p` moves neither. */
  lemma EnableCarries(s: Service, p: Proxy, q: Proxy, id: string, connector: string)
    requires SpecMatches(q, LabelOf(p, id), DesiredRules(EndpointOf(p), connector, s.exempt))
    ensures EndpointOf(q) == EndpointOf(p) && LabelOf(q, id) == LabelOf(p, id)
    ensures s.Enabled(q, id, connector) && OneConnector(q) && ConnectorOf(q) == Some(connector)
  {
    var e := BackendEndpoint(RulesOf(p));
    NormalizeIdempotent(if e.Some? then e.value else "");
    MatchingCarries(q, LabelOf(p, id), EndpointOf(p), connector, s.exempt);
  }

  /** A freshly written proxy is settled for all three verbs: updating, enabling
      or retargeting it to the same endpoint and connector matches already. */
  lemma WrittenIsSettled(s: Service, p: Proxy, id: string, display: string, endpoint: string, connector: string)
    requires SpecMatches(p, display, DesiredRules(Normalize(endpoint), connector, s.exempt))
    ensures s.Pointed(p, id, endpoint)
    ensures s.Enabled(p, id, connector)
    ensures SpecMatches(p, LabelOf(p, id), DesiredRules(Normalize(endpoint), connector, s.exempt))
  {
    MatchingCarries(p, display, Normalize(endpoint), connector, s.exempt);
    NormalizeIdempotent(endpoint);
  }

  /** The other half: retargeting repairs nothing. A live proxy whose connector is
      missing is written onto one connector and is loose afterwards, so a store
      that starts with one can end with it. */
  lemma LooseRetargetStaysLoose(st: Store, id: string, endpoint: string, exempt: seq<Match>)
    requires Loose(st, id)
    ensures var p' := Patched(st.proxies[id], LabelOf(st.proxies[id], id),
                              DesiredRules(Normalize(endpoint), ConnectorOf(st.proxies[id]).value, exempt));
      OneConnector(p') && !Wired(p', st.connectors.Keys) && Loose(st.(proxies := st.proxies[id := p']), id)
  {
    WritingRulesWires(st.proxies[id], LabelOf(st.proxies[id], id), Normalize(endpoint), ConnectorOf(st.proxies[id]).value, exempt,
                      st.connectors.Keys);
  }
}
