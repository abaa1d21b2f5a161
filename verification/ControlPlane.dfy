/**
  The tunnel service against the control plane: HTTPProxies, Connectors and
  ConnectorAdvertisements, changed one API call at a time. Any call may fail;
  a failed write may or may not have taken effect.
 */
module ControlPlane {
  import opened Text
  import opened Rules
  import opened Json
  import opened ProxyJson

  /** `deleting` is the deletion timestamp: the API server still lists the
      object until its finalizers complete. */
  datatype Proxy = Proxy(doc: Json, deleting: bool)

  /** `details` is `status.connectionDetails`, once patched in, and `key` its
      `publicKey.id`. */
  datatype Connector = Connector(key: Option<string>, details: Option<string>)

  datatype Target = Target(address: string, port: nat)

  datatype Advertisement = Advertisement(connector: string, target: Target)

  datatype Store = Store(
    proxies: map<string, Proxy>,
    connectors: map<string, Connector>,
    ads: map<string, Advertisement>)

  function RulesOf(p: Proxy): seq<Rule> {
    var r := StoredRules(p.doc);
    if r.Some? then r.value else []
  }

  /** The typed client can deserialize the object. */
  predicate Readable(p: Proxy) {
    StoredRules(p.doc).Some?
  }

  /** `proxy_label`. */
  function LabelOf(p: Proxy, id: string): string {
    var a := Annotations(p.doc);
    if DISPLAY_NAME_ANNOTATION in a && a[DISPLAY_NAME_ANNOTATION].Str? then a[DISPLAY_NAME_ANNOTATION].s else id
  }

  function HostnamesOf(p: Proxy): seq<string> {
    var h := ReadArr(Get(Get(p.doc, "spec"), "hostnames"), ReadStr);
    if h.Some? then h.value else []
  }

  /** The endpoint as listed: normalised, empty when there is no backend. */
  function EndpointOf(p: Proxy): string {
    var e := BackendEndpoint(RulesOf(p));
    Normalize(if e.Some? then e.value else "")
  }

  function ConnectorOf(p: Proxy): Option<string> {
    ConnectorName(RulesOf(p))
  }

  /** `http_proxy_spec_matches`. */
  predicate SpecMatches(p: Proxy, display: string, rules: seq<Rule>) {
    DocMatches(p.doc, display, rules)
  }

  function Patched(p: Proxy, display: string, rules: seq<Rule>): Proxy {
    p.(doc := MergePatch(p.doc, ProxyPatch(display, HostnamesOf(p), rules)))
  }

  /** All backends of the proxy name one connector. */
  predicate OneConnector(p: Proxy) {
    ConnectorOf(p).Some? && AllUse(RulesOf(p), ConnectorOf(p).value)
  }

  /** `p` names one connector throughout, and it exists. */
  predicate Wired(p: Proxy, connectors: set<string>) {
    OneConnector(p) && ConnectorOf(p).value in connectors
  }

  /** A live proxy that names a connector which is not there. */
  predicate Loose(st: Store, id: string) {
    && id in st.proxies && !st.proxies[id].deleting
    && ConnectorOf(st.proxies[id]).Some? && ConnectorOf(st.proxies[id]).value !in st.connectors
  }

  /** Every live proxy that names a connector names an existing one. */
  ghost predicate Closed(st: Store) {
    forall id :: !Loose(st, id)
  }

  /** No proxy came loose between the two stores. */
  ghost predicate NoneLost(before: Store, after: Store) {
    forall id | Loose(after, id) :: Loose(before, id)
  }

  /** The live proxies in `wrote` name one connector on all their backends. */
  ghost predicate Intact(st: Store, wrote: set<string>) {
    forall id | id in wrote && id in st.proxies && !st.proxies[id].deleting :: OneConnector(st.proxies[id])
  }

  /** The two proxy maps agree everywhere but at `id`. */
  predicate SameExcept(a: map<string, Proxy>, b: map<string, Proxy>, id: string) {
    && (forall k | k in a && k != id :: k in b && b[k] == a[k])
    && (forall k | k in b && k != id :: k in a)
  }

  /** No live proxy reads back as using `name`. */
  predicate Unreferenced(proxies: map<string, Proxy>, name: string) {
    forall id | id in proxies && !proxies[id].deleting :: ConnectorOf(proxies[id]) != Some(name)
  }

  /** The label is the annotation of that name, else the object's own name. */
  lemma LabelMeans(p: Proxy, id: string, display: string)
    ensures Get(Get(Get(p.doc, "metadata"), "annotations"), "app.kubernetes.io/name") == Str(display) ==> LabelOf(p, id) == display
    ensures !Get(Get(Get(p.doc, "metadata"), "annotations"), "app.kubernetes.io/name").Str? ==> LabelOf(p, id) == id
  {
  }

  // ---- What a write does ----

  /** Whatever was stored, after one patch the proxy carries exactly the rules
      asked for, on one connector, under the label asked for; so it is wired
      exactly when that connector exists. */
  lemma WritingRulesWires(p: Proxy, display: string, endpoint: string, connector: string, exempt: seq<Match>, connectors: set<string>)
    ensures var p' := Patched(p, display, DesiredRules(endpoint, connector, exempt));
      && SpecMatches(p', display, DesiredRules(endpoint, connector, exempt))
      && ConnectorOf(p') == Some(connector) && OneConnector(p') && Readable(p')
      && (Wired(p', connectors) <==> connector in connectors)
      && EndpointOf(p') == Normalize(endpoint)
      && (forall id :: LabelOf(p', id) == display)
      && HostnamesOf(p') == HostnamesOf(p)
      && p'.deleting == p.deleting
  {
    PatchSettles(p.doc, display, HostnamesOf(p), DesiredRules(endpoint, connector, exempt));
    ReadBack(endpoint, connector, exempt);
  }

  /** A patch leaves the object's own list of hostnames as it is. */
  lemma PatchKeepsHostnames(p: Proxy, display: string, rules: seq<Rule>)
    ensures var before, after := Get(Get(p.doc, "spec"), "hostnames"), Get(Get(Patched(p, display, rules).doc, "spec"), "hostnames");
      && (before.Arr? && (forall i | 0 <= i < |before.items| :: before.items[i].Str?) ==> after == before)
      && (!before.Arr? ==> after == Arr([]))
  {
    PatchSettles(p.doc, display, HostnamesOf(p), rules);
    var before := Get(Get(p.doc, "spec"), "hostnames");
    if before.Arr? && forall i | 0 <= i < |before.items| :: before.items[i].Str? {
      StringsRead(before.items);
      StringsRoundTrip(before.items);
    }
  }

  lemma {:induction false} StringsRead(items: seq<Json>)
    requires forall i | 0 <= i < |items| :: items[i].Str?
    ensures ReadAll(items, ReadStr).Some?
  {
    if items != [] {
      StringsRead(items[1..]);
    }
  }

  /** A proxy that already matches carries exactly the desired rules. */
  lemma MatchingCarries(p: Proxy, display: string, endpoint: string, connector: string, exempt: seq<Match>)
    requires SpecMatches(p, display, DesiredRules(endpoint, connector, exempt))
    ensures RulesOf(p) == DesiredRules(endpoint, connector, exempt)
    ensures ConnectorOf(p) == Some(connector) && OneConnector(p)
    ensures EndpointOf(p) == Normalize(endpoint)
    ensures forall id :: LabelOf(p, id) == display
  {
    RulesRoundTrip(RulesOf(p));
    RulesRoundTrip(DesiredRules(endpoint, connector, exempt));
    ReadBack(endpoint, connector, exempt);
  }

  /** Writing the desired rules onto `base` under `id` keeps the store intact,
      and brings nothing loose if the connector exists or was named already. */
  lemma WritingKeeps(st: Store, wrote: set<string>, id: string, base: Proxy,
                     display: string, endpoint: string, connector: string, exempt: seq<Match>)
    requires Intact(st, wrote)
    requires connector in st.connectors
      || (id in st.proxies && st.proxies[id] == base && ConnectorOf(base) == Some(connector))
    ensures var st' := st.(proxies := st.proxies[id := Patched(base, display, DesiredRules(endpoint, connector, exempt))]);
      Intact(st', wrote + {id}) && NoneLost(st, st')
  {
    WritingRulesWires(base, display, endpoint, connector, exempt, st.connectors.Keys);
    var st' := st.(proxies := st.proxies[id := Patched(base, display, DesiredRules(endpoint, connector, exempt))]);
    forall k | Loose(st', k) ensures Loose(st, k) {
      assert k != id ==> st'.proxies[k] == st.proxies[k];
    }
  }

  lemma DroppingUnreferencedKeeps(st: Store, name: string)
    requires Unreferenced(st.proxies, name)
    ensures NoneLost(st, st.(connectors := st.connectors - {name}))
  {
  }

  // ---- Over a run ----

  datatype Snapshot = Snapshot(store: Store, wrote: set<string>)

  /** The first `n` snapshots are intact, and from each to the next no proxy came
      loose. */
  ghost predicate Chain(trail: seq<Snapshot>, n: nat)
    requires n <= |trail|
  {
    n > 0 ==>
      && Chain(trail, n - 1) && Intact(trail[n - 1].store, trail[n - 1].wrote)
      && (n > 1 ==> NoneLost(trail[n - 2].store, trail[n - 1].store))
  }

  lemma {:induction false} ChainExtends(trail: seq<Snapshot>, longer: seq<Snapshot>, n: nat)
    requires n <= |trail| && trail <= longer && Chain(trail, n)
    ensures Chain(longer, n)
  {
    if n > 0 {
      ChainExtends(trail, longer, n - 1);
    }
  }

  /** So all were intact, and no proxy came loose between any two points. */
  lemma {:induction false} ChainNoneLost(trail: seq<Snapshot>, i: nat, j: nat, n: nat)
    requires i <= j < n <= |trail| && Chain(trail, n)
    ensures NoneLost(trail[i].store, trail[j].store) && Intact(trail[j].store, trail[j].wrote)
    decreases n
  {
    if j < n - 1 {
      ChainNoneLost(trail, i, j, n - 1);
    } else if i < j {
      ChainNoneLost(trail, i, j - 1, n - 1);
      NoneLostTransitive(trail[i].store, trail[j - 1].store, trail[j].store);
    }
  }

  lemma NoneLostTransitive(a: Store, b: Store, c: Store)
    requires NoneLost(a, b) && NoneLost(b, c)
    ensures NoneLost(a, c)
  {
  }

  /** In an intact store a written live proxy is wired exactly if it is not
      loose; in a closed one all of them are. */
  lemma IntactIsWired(st: Store, wrote: set<string>)
    requires Intact(st, wrote)
    ensures forall id | id in wrote && id in st.proxies && !st.proxies[id].deleting ::
      Wired(st.proxies[id], st.connectors.Keys) <==> !Loose(st, id)
    ensures Closed(st) ==> forall id | id in wrote && id in st.proxies && !st.proxies[id].deleting ::
      Wired(st.proxies[id], st.connectors.Keys)
  {
    forall id | id in wrote && id in st.proxies && !st.proxies[id].deleting
      ensures Wired(st.proxies[id], st.connectors.Keys) <==> !Loose(st, id) {
      assert OneConnector(st.proxies[id]);
    }
  }

  /** A closed store stays closed. */
  lemma NoneLostKeepsClosed(before: Store, after: Store)
    requires NoneLost(before, after) && Closed(before)
    ensures Closed(after)
  {
  }

  // ---- The API ----

  class Api {
    var store: Store
    var patches: nat                 // HTTPProxy patches sent
    ghost var wrote: set<string>     // proxies whose rules this service wrote
    ghost var trail: seq<Snapshot>   // the state at first and after every write
    ghost var faults: nat            // calls that failed

    /** The trail ends with the present, every store on it was intact, and from
        each to the next no proxy came loose. */
    ghost predicate Valid()
      reads this
    {
      |trail| > 0 && trail[|trail| - 1] == Snapshot(store, wrote) && Chain(trail, |trail|)
    }

    constructor (store: Store)
      ensures this.store == store && wrote == {} && trail == [Snapshot(store, {})] && patches == 0 && faults == 0 && Valid()
    {
      this.store, patches, wrote, trail, faults := store, 0, {}, [Snapshot(store, {})], 0;
    }

    /** Every call may fail, for any reason. */
    method Fails() returns (failed: bool)
      modifies `faults
      ensures faults == old(faults) + if failed then 1 else 0
    {
      failed := *;
      faults := faults + if failed then 1 else 0;
    }

    /** A choice the server or the node makes. */
    method Chance() returns (yes: bool)
    {
      yes := *;
    }

    ghost method Log()
      requires |trail| > 0 && Chain(trail, |trail|) && Intact(store, wrote) && NoneLost(trail[|trail| - 1].store, store)
      modifies `trail
      ensures Valid() && trail == old(trail) + [Snapshot(store, wrote)]
    {
      ChainExtends(trail, trail + [Snapshot(store, wrote)], |trail|);
      trail := trail + [Snapshot(store, wrote)];
    }

    /** The object named `id` is now `base` patched with the desired rules. */
    method Write(id: string, base: Proxy, display: string, endpoint: string, connector: string, exempt: seq<Match>)
      requires Valid()
      requires connector in store.connectors
        || (id in store.proxies && store.proxies[id] == base && ConnectorOf(base) == Some(connector))
      modifies `store, `wrote, `trail
      ensures Valid() && old(trail) <= trail && wrote == old(wrote) + {id}
      ensures store == old(store).(proxies := old(store).proxies[id := Patched(base, display, DesiredRules(endpoint, connector, exempt))])
    {
      IntactNow();
      WritingKeeps(store, wrote, id, base, display, endpoint, connector, exempt);
      wrote := wrote + {id};
      store := store.(proxies := store.proxies[id := Patched(base, display, DesiredRules(endpoint, connector, exempt))]);
      Log();
    }

    lemma IntactNow()
      requires Valid()
      ensures Intact(store, wrote)
    {
    }

    /** `proxies.get`: fails when the call does, when there is no such object,
        or when it does not deserialize. */
    method FetchProxy(id: string) returns (p: Option<Proxy>)
      modifies `faults
      ensures faults >= old(faults)
      ensures faults == old(faults) ==> (p.Some? <==> id in store.proxies && Readable(store.proxies[id]))
      ensures p.Some? ==> id in store.proxies && p.value == store.proxies[id] && Readable(p.value)
    {
      var failed := Fails();
      if failed || id !in store.proxies || !Readable(store.proxies[id]) {
        return None;
      }
      p := Some(store.proxies[id]);
    }

    /** `proxies.patch`, as every verb uses it: onto a connector that exists, or
        the one the proxy names already. */
    method PatchProxy(id: string, display: string, endpoint: string, connector: string, exempt: seq<Match>) returns (ok: bool)
      requires Valid() && id in store.proxies
      requires connector in store.connectors || ConnectorOf(store.proxies[id]) == Some(connector)
      modifies this
      ensures Valid() && old(trail) <= trail && patches == old(patches) + 1
      ensures store.connectors == old(store).connectors && store.ads == old(store).ads
      ensures id in store.proxies
      ensures store.proxies == old(store).proxies || store.proxies == old(store).proxies[id := store.proxies[id]]
      ensures (store.proxies[id] == old(store).proxies[id] ||
          store.proxies[id] == Patched(old(store).proxies[id], display, DesiredRules(endpoint, connector, exempt)))
      ensures ok ==> store.proxies[id] == Patched(old(store).proxies[id], display, DesiredRules(endpoint, connector, exempt))
      ensures ok ==> id in wrote
      ensures faults >= old(faults) && (ok <==> faults == old(faults))
    {
      var failed := Fails();
      var took := Chance();
      patches := patches + 1;
      if !failed || took {
        Write(id, store.proxies[id], display, endpoint, connector, exempt);
      }
      ok := !failed;
    }

    /** `proxies.create` under the name the server generated. Absent hostnames
        read as an empty list. */
    method CreateProxy(name: string, display: string, endpoint: string, connector: string, exempt: seq<Match>) returns (ok: bool)
      requires Valid() && connector in store.connectors
      modifies this
      ensures Valid() && old(trail) <= trail && patches == old(patches)
      ensures store.connectors == old(store).connectors && store.ads == old(store).ads
      ensures store.proxies == old(store).proxies || (name !in old(store).proxies && name in store.proxies &&
          store.proxies == old(store).proxies[name := store.proxies[name]])
      ensures ok ==> (name !in old(store).proxies && name in wrote && name in store.proxies &&
          store.proxies[name] == Patched(Proxy(Null, false), display, DesiredRules(endpoint, connector, exempt)))
      ensures faults >= old(faults) && (faults == old(faults) ==> (ok <==> name !in old(store).proxies))
    {
      var failed := Fails();
      var took := Chance();
      if name in store.proxies {
        ok := false;
        return;
      }
      if !failed || took {
        Write(name, Proxy(Null, false), display, endpoint, connector, exempt);
      }
      ok := !failed;
    }

    /** `proxies.delete`: the object goes, or is marked until finalizers run. */
    method DeleteProxy(id: string) returns (ok: bool)
      requires Valid() && id in store.proxies
      modifies this
      ensures Valid() && old(trail) <= trail && patches == old(patches) && wrote == old(wrote)
      ensures store.connectors == old(store).connectors && store.ads == old(store).ads
      ensures SameExcept(old(store).proxies, store.proxies, id)
      ensures ok ==> id !in store.proxies || store.proxies[id].deleting
      ensures faults >= old(faults) && (ok <==> faults == old(faults))
    {
      var failed := Fails();
      var took := Chance();
      var finalizers := Chance();
      if !failed || took {
        store := store.(proxies := if finalizers then store.proxies[id := store.proxies[id].(deleting := true)]
                                   else store.proxies - {id});
      }
      Log();
      ok := !failed;
    }

    method CreateConnector(name: string) returns (ok: bool)
      requires Valid()
      modifies this
      ensures Valid() && old(trail) <= trail && patches == old(patches) && wrote == old(wrote)
      ensures store.proxies == old(store).proxies && store.ads == old(store).ads
      ensures store.connectors == old(store).connectors ||
        (name !in old(store).connectors && store.connectors == old(store).connectors[name := Connector(None, None)])
      ensures ok ==> name in store.connectors
      ensures faults >= old(faults) && (faults == old(faults) ==> (ok <==> name !in old(store).connectors))
    {
      var failed := Fails();
      var took := Chance();
      if name in store.connectors {
        ok := false;
        return;
      }
      if !failed || took {
        store := store.(connectors := store.connectors[name := Connector(None, None)]);
      }
      Log();
      ok := !failed;
    }

    /** A failure here only warns. */
    method PatchConnectorStatus(name: string, key: string, details: string)
      requires Valid() && name in store.connectors
      modifies this
      ensures Valid() && old(trail) <= trail && patches == old(patches) && wrote == old(wrote)
      ensures store.proxies == old(store).proxies && store.ads == old(store).ads
      ensures store.connectors == old(store).connectors || store.connectors == old(store).connectors[name := Connector(Some(key), Some(details))]
      ensures faults >= old(faults)
      ensures faults == old(faults) ==> store.connectors == old(store).connectors[name := Connector(Some(key), Some(details))]
    {
      var failed := Fails();
      if !failed {
        store := store.(connectors := store.connectors[name := Connector(Some(key), Some(details))]);
      }
      Log();
    }

    method DeleteConnector(name: string) returns (ok: bool)
      requires Valid() && Unreferenced(store.proxies, name)
      modifies this
      ensures Valid() && old(trail) <= trail && patches == old(patches) && wrote == old(wrote)
      ensures store.proxies == old(store).proxies && store.ads == old(store).ads
      ensures store.connectors == old(store).connectors || store.connectors == old(store).connectors - {name}
      ensures ok ==> name !in store.connectors
      ensures faults >= old(faults) && (ok <==> faults == old(faults))
    {
      var failed := Fails();
      var took := Chance();
      if !failed || took {
        DroppingUnreferencedKeeps(store, name);
        store := store.(connectors := store.connectors - {name});
      }
      Log();
      ok := !failed;
    }

    /** Create or patch an advertisement. */
    method PutAd(id: string, ad: Advertisement) returns (ok: bool)
      requires Valid()
      modifies this
      ensures Valid() && old(trail) <= trail && patches == old(patches) && wrote == old(wrote)
      ensures store.proxies == old(store).proxies && store.connectors == old(store).connectors
      ensures store.ads == old(store).ads || store.ads == old(store).ads[id := ad]
      ensures ok ==> id in store.ads && store.ads[id] == ad
      ensures faults >= old(faults) && (ok <==> faults == old(faults))
    {
      var failed := Fails();
      var took := Chance();
      if !failed || took {
        store := store.(ads := store.ads[id := ad]);
      }
      Log();
      ok := !failed;
    }

    method DeleteAd(id: string) returns (ok: bool)
      requires Valid()
      modifies this
      ensures Valid() && old(trail) <= trail && patches == old(patches) && wrote == old(wrote)
      ensures store.proxies == old(store).proxies && store.connectors == old(store).connectors
      ensures store.ads == old(store).ads || store.ads == old(store).ads - {id}
      ensures ok ==> id !in store.ads
      ensures faults >= old(faults) && (ok <==> faults == old(faults))
    {
      var failed := Fails();
      var took := Chance();
      if !failed || took {
        store := store.(ads := store.ads - {id});
      }
      Log();
      ok := !failed;
    }
  }
}
