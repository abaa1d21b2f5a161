# Datum Connect: a verified model

This project models the daemon and library that keep Datum tunnels alive
against a remote control plane, and proves what they promise under concurrent
callers, crashes and partial failures. `dafny verify dfyconfig.toml` checks all
of it.

- **Tunnel lifecycle** (`Lifecycle`, `LifecycleSafety`, `LifecycleEndpoints`,
  `LifecycleRuns`, `LifecycleApart`, `LifecycleStarts`, `LifecycleStops`,
  `LifecycleBoot`, `LifecycleWitnesses`): a state machine whose tasks are the
  request handlers split at their await points, with dropped requests and their
  detached writes, restarts and the reconciliation pass. `EveryRunSafe` and
  `EveryRunPointed` hold for every event sequence; what a start, a stop, a delete
  and a restart each achieve holds while other tunnels do anything;
  `LifecycleWitnesses` gives the runs that show the premises are needed.
- **Resource reconciliation** (`Rules`, `Json`, `ProxyJson`, `ControlPlane`,
  `TunnelService`): proxies, connectors and advertisements, changed one API call
  at a time. A call that reports failure may or may not have taken effect. The
  `Api` class records the store after every write; its `Valid()` says that each
  of them was intact and that from each to the next no proxy came loose. It also
  counts failed calls, so that each operation states when it succeeds if no call
  fails.
- **Edge policies** (`Waf`): concurrent `ensure_waf` tasks and portal edits over
  one stored policy with resource versions.
- **Lease heartbeat** (`Heartbeat`): the project loop against an observer that
  sees only the trace of calls and sleeps.
- **Fast forms of simple specifications** (`Tail`, `Relays`, `Progress`,
  `Inspector`): the loops as the code has them, against plain definitions.
- **Small stores** (`Keys`, `Tokens` with `Base64Url`, `LogSources`).

## Where the code and a stronger claim part

- A written proxy can lack its connector: `retarget_project` keeps whatever
  connector the proxy names, and does not ask whether it exists
  (`LooseRetargetStaysLoose`). That takes a live proxy without its connector to
  begin with: no operation brings one about (`Serve`), so with all live proxies'
  connectors there before a run they are there after every call of it.
- Four things break the endpoint property, each shown by a run from a fresh
  machine. A repoint cut off between its HTTPProxy patch and its install strands
  the tunnel (`CutOffHappens`). A create that installs after a repoint of its
  own tunnel went through replaces the repoint's inspector
  (`OvertakingHappens`). A target write that fails leaves the old target on file
  (`UnsavedHappens`), and so does a dropped request's detached write that lands
  late (`LateWriteHappens`). `EveryRunPointed` states the proxy's half as an
  if-and-only-if over the first two; `CleanRunsServe` excludes all four.
- An operate token minted with a time to live so large that the expiry sum wraps
  is expired from the start (`ExpiryExact`). A build with overflow checks would
  panic there instead.
- Stripping a control sequence leaves the text around it alone only if no earlier
  sequence was left open (`StripSequence`, `OpenSequenceSwallows`).
- Two failed renewals in a row are survived exactly from leases of 15 seconds up
  (`SurvivalThresholds`).

## Model

| member | source | states |
|---|---|---|
| `LifecycleSafety.EveryRunSafe` | connect/connect-lib/daemon/src/main.rs:1248-1272 | In every reachable state of every interleaving of starts, stops, sweeps, deletes, creates, dropped requests and restarts: `busy` is exactly the set of ids held by in-flight starts and stops, each held by one task; a start that will insert sees no live entry; every instance is running under one id, in the hands of one task, or torn down once |
| `LifecycleSafety.EntriesAreNeverReplaced` | connect/connect-lib/daemon/src/main.rs:1467-1476 | Whatever event comes next in any reachable state, a live `running` entry is kept or removed but never replaced, and no instance was torn down twice |
| `LifecycleSafety.StepKeepsSafe` | connect/connect-lib/daemon/src/main.rs:1353-1528 | Each single step of any task, any drop of a task at an await point, any restart keeps that invariant |
| `LifecycleSafety.DeleteDelta` | connect/connect-lib/daemon/src/main.rs:1191-1218 | A delete claims nothing: it leaves `busy` alone and at most takes one running instance, which it tears down |
| `LifecycleEndpoints.EveryRunPointed` | connect/connect-lib/daemon/src/main.rs:1353-1461 | In every reachable state, for every tunnel with an installed inspector and an existing proxy outside a repoint's patch-to-install window: the proxy leads to that inspector if and only if no repoint was cut off after its patch (or overtaken by a create); and unless its create is in flight, its target write failed or was cut off, or a dropped request's detached write landed since, the target file names what the inspector forwards to |
| `LifecycleEndpoints.LandKeepsPointed` | connect/connect-lib/daemon/src/main.rs:142-146 | A target write detached from a dropped request may land at any later moment and keeps that |
| `LifecycleEndpoints.StepKeepsPointed` | connect/connect-lib/daemon/src/main.rs:198-224 | Every event keeps it, including installs that fail to write the target file |
| `LifecycleEndpoints.BootStepKeepsPointed` | connect/connect-lib/daemon/src/main.rs:2262-2322 | Every step of the restart reconciliation pass keeps it: port reuse, repoint, install and auto-resume, interleaved with client requests |
| `LifecycleEndpoints.ApplyKeepsPorts` | connect/connect-lib/daemon/src/main.rs:198-206 | Installed inspectors, those carried by tasks and the one of the reconciliation pass never share a port |
| `LifecycleRuns.CleanRunsServe` | connect/connect-lib/daemon/src/main.rs:165-224 | When target writes succeed, each repoint's calls all succeed or fail before the HTTPProxy patch, and no tunnel is repointed while its create is in flight: every tunnel with an installed inspector and an existing proxy, not just then being repointed or created, has its proxy at that inspector up to a trailing slash and its target file equal to what it forwards to |
| `LifecycleRuns.CutOffStrands` | connect/connect-lib/daemon/src/main.rs:1443-1461 | From any state satisfying the invariants, a repoint cut off between patch and install leaves the old inspector installed and the proxy leading elsewhere |
| `LifecycleWitnesses.CutOffHappens` | connect/connect-lib/daemon/src/main.rs:1443-1461 | Such a state is reached: an explicit run from any fresh machine, create then start then drop after the patch, ends with nobody at work and the proxy leading away from the installed inspector |
| `LifecycleWitnesses.OvertakingHappens` | connect/connect-lib/daemon/src/main.rs:1173-1175 | The premise on creates is needed: an explicit run in which a repoint goes through while the create is about to install ends with the create's inspector installed, the proxy leading to the repoint's, and the target file naming the repoint's target |
| `LifecycleWitnesses.UnsavedHappens` | connect/connect-lib/daemon/src/main.rs:219-223 | The premise on target writes is needed: an explicit run ends with the new inspector installed and the old target on file |
| `LifecycleWitnesses.LateWriteHappens` | connect/connect-lib/daemon/src/main.rs:142-146 | A detached write is a real hazard: an explicit run ends with a target file that names a dropped request's target although a later start wrote and installed another |
| `LifecycleWitnesses.StartRuns` | connect/connect-lib/daemon/src/main.rs:1353-1458 | The exact state after each of the first twelve steps of a start with a new target, from claim to patch to install |
| `LifecycleWitnesses.CreateWrites` | connect/connect-lib/daemon/src/main.rs:1156-1175 | The exact state when a create is about to install |
| `LifecycleStarts.StartServes` | connect/connect-lib/daemon/src/main.rs:1353-1480 | A start with a target that reports success, whatever happens on other tunnels meanwhile, leaves the tunnel running, with an inspector, recorded at that target unless the write failed |
| `LifecycleStarts.StartDelivers` | connect/connect-lib/daemon/src/main.rs:1353-1480 | From any reachable state: after such a start the installed inspector forwards to the target asked for, up to trailing slashes, unless the file may be stale, and the proxy leads to it if and only if no repoint stranded the tunnel |
| `LifecycleApart.AsideKeeps` | connect/connect-lib/daemon/src/main.rs:1248-1272 | No step or drop of a task on another tunnel, no step of the reconciliation pass there and no detached write there touches this tunnel's entry, inspector, file or proxy |
| `LifecycleApart.AsideMemory` | connect/connect-lib/daemon/src/main.rs:1248-1272 | Nor its reservation; and no teardown is ever undone |
| `LifecycleStarts.StartFinishes` | connect/connect-lib/daemon/src/main.rs:1353-1480 | A start of an existing, unclaimed tunnel, with or without a target, whose calls succeed reports success within seventeen of its own steps, whatever other tunnels do |
| `LifecycleStops.StopStops` | connect/connect-lib/daemon/src/main.rs:1509-1528 | Whatever other tunnels do: a stop that reports success has removed the entry and torn the running instance down exactly once; on an unclaimed tunnel the entry is gone from its second step on however it ends, five steps end it, and end it well if its calls succeed; on a claimed one it fails and changes nothing |
| `LifecycleStops.DroppedStopStops` | connect/connect-lib/daemon/src/main.rs:1509-1528 | A stop dropped after it took the instance tears that down too |
| `LifecycleStops.DeleteEnds` | connect/connect-lib/daemon/src/main.rs:1191-1218 | Five steps end a delete, well if its server call succeeds; once it ended well the tunnel is off and its instance torn down exactly once |
| `LifecycleStops.DeleteDeletes` | connect/connect-lib/daemon/src/main.rs:1191-1218 | At the moment a delete ends well, entry, inspector, target file and proxy are all gone |
| `LifecycleStops.PlainStartRuns` | connect/connect-lib/daemon/src/main.rs:1353-1480 | A plain start, or the resume after a restart, that reports success leaves the tunnel on, its inspector and target file as they were and its proxy leading where it led |
| `LifecycleBoot.RestartRevives` | connect/connect-lib/daemon/src/main.rs:2262-2322 | In any reachable state in which the pass turns to a tunnel with a proxy and a target file: if its calls succeed, its sixth step, whatever other tunnels do in between, leaves an inspector on the file's target ("http://" put before it unless it begins with "http://" or "https://"), the proxy at that inspector, that target on file, and a start if it was on |
| `LifecycleBoot.RestartLists` | connect/connect-lib/daemon/src/main.rs:2222-2262 | A restart lists the tunnels in order, each with whether it was on, and begins with the first |
| `LifecycleBoot.RestartHappens` | connect/connect-lib/daemon/src/main.rs:2222-2322 | An explicit run: a machine comes up with one tunnel that was on, and six steps of the pass bring it back and start it |
| `LifecycleStarts.RepeatedStartIsIdle` | connect/connect-lib/daemon/src/main.rs:1353-1385 | After a start with a target succeeded and recorded it, no step of a second start with the same target changes memory or world (no inspector, no patch, no file) and the tunnel stays as it is, while tasks on other tunnels interleave in any way during both |
| `LifecycleStarts.StartAgainIsIdle` | connect/connect-lib/daemon/src/main.rs:180-182 | A start for a running tunnel whose file names the same target, up to trailing slashes, ends at its third step, each of its steps changing nothing, whatever its calls answer and whatever other tunnels do |
| `Text.NormalizeIdempotent` | connect/connect-lib/lib/src/tunnels.rs:1805-1814 | Normalising an endpoint twice is normalising it once, so reading an endpoint back and writing it again never moves a tunnel |
| `Text.NormalizeMeans` | connect/connect-lib/lib/src/tunnels.rs:1805-1814 | Blanks around an endpoint go; a text in which "://" occurs stays as it is, any other gets "http://" before it; blanks alone give the empty text |
| `Text.EveryEndpoint` | connect/connect-lib/lib/src/tunnels.rs:1805-1814 | Every text is blank or a core between blanks, so that says what is computed for every input |
| `Text.TrimSlashMeans` | connect/connect-lib/daemon/src/main.rs:180-182 | All slashes at the end go and nothing else |
| `Text.DecimalMeans` | connect/connect-lib/daemon/src/main.rs:198-206 | A port is written in decimal without leading zeros |
| `Text.InspectorCanon` | connect/connect-lib/daemon/src/main.rs:198-206 | An inspector endpoint is its own canonical form |
| `Text.InspectorInjective` | connect/connect-lib/daemon/src/main.rs:188-193 | Inspector endpoints with different ports differ |
| `Rules.ReadBack` | connect/connect-lib/lib/src/tunnels.rs:1991-2007 | The connector and endpoint read back from either rule form are the ones written, and every backend names that one connector |
| `Rules.ConnectorIsFirstNamed` | connect/connect-lib/lib/src/tunnels.rs:1915-1922 | The connector read is what the first backend that names any names, and none is read exactly if no backend names one |
| `Rules.SplitPreservesRouting` | connect/connect-lib/lib/src/tunnels.rs:1926-2007 | For every request, every regular-expression engine and every non-empty exemption list the split rules give the same outcome as the unsplit pair; traffic not marked HTTP lands in `streams` exactly when an exemption matches, else in `protected` |
| `ProxyJson.RulesRoundTrip` | connect/connect-lib/lib/src/tunnels.rs:1839-1863 | Rules written as JSON, absent options as null, read back unchanged |
| `ProxyJson.WireShape` | connect/connect-lib/lib/src/tunnels.rs:1926-1990 | The wire names under which endpoint, connector, redirect and header match are written |
| `ProxyJson.PatchSettles` | connect/connect-lib/lib/src/tunnels.rs:1083-1121 | Whatever the stored object, one merge patch makes `http_proxy_spec_matches` true, stores the hostnames sent, keeps every other annotation, and touches nothing but that annotation, hostnames and rules |
| `Json.PatchHolds` | connect/connect-lib/lib/src/tunnels.rs:1099-1113 | A merge patch without nulls (section 2 of RFC 7396) holds afterwards, for all documents |
| `Json.PatchIdempotent` | connect/connect-lib/lib/src/tunnels.rs:1099-1113 | Applying it to a document that already holds it changes nothing |
| `Json.MergePatchMeans` | connect/connect-lib/lib/src/tunnels.rs:1099-1113 | Key by key, as section 2 of RFC 7396 has it: null removes, absence leaves alone, anything else is merged into what was there |
| `ControlPlane.WritingRulesWires` | connect/connect-lib/lib/src/tunnels.rs:1991-2007 | After a write of the desired rules every backend names one connector, the endpoint and label read back, the hostnames are the ones it had, and the proxy is wired if and only if that connector exists |
| `ControlPlane.WritingKeeps` | connect/connect-lib/lib/src/tunnels.rs:1083-1121 | Writing the desired rules onto a connector that exists, or the one the proxy names already, brings no proxy loose |
| `ControlPlane.ChainNoneLost` | connect/connect-lib/lib/src/tunnels.rs:592-650 | Along any run no proxy is without its connector at a later point that was not, live, at every earlier one |
| `ControlPlane.IntactIsWired` | connect/connect-lib/lib/src/tunnels.rs:1915-1922 | A written live proxy has its one connector if and only if it is not loose; in a closed store all have |
| `ControlPlane.MatchingCarries` | connect/connect-lib/lib/src/tunnels.rs:1839-1863 | A proxy that matches without a patch carries exactly the desired rules, connector, endpoint and label |
| `ControlPlane.PatchKeepsHostnames` | connect/connect-lib/lib/src/tunnels.rs:1083-1113 | A patch leaves the object's own list of hostnames exactly as it is, and writes an empty one if there is none |
| `ControlPlane.LabelMeans` | connect/connect-lib/lib/src/tunnels.rs:1882-1890 | The label is the display-name annotation, else the object's own name |
| `ControlPlane.DroppingUnreferencedKeeps` | connect/connect-lib/lib/src/tunnels.rs:1694-1742 | Deleting a connector no live proxy reads back as using brings no proxy loose |
| `ControlPlane.Api.PatchProxy` | connect/connect-lib/lib/src/tunnels.rs:1099-1113 | A patch onto a connector that exists or is named already: success stores the merge, reported failure may have taken effect, and either way no proxy comes loose |
| `ControlPlane.Api.DeleteConnector` | connect/connect-lib/lib/src/tunnels.rs:1735-1741 | Deleting an unreferenced connector, failing or not, brings no proxy loose |
| `TunnelService.Service.Serve` | connect/connect-lib/lib/src/tunnels.rs:592-650 | Over every sequence of whole operations, retargets included, with any call failing: after every single API call each live written proxy has one connector on all its backends, and a live proxy whose connector is missing was live without it before the run; so if every live proxy's connector existed before, each live written proxy's connector exists after every call |
| `TunnelService.Service.EnsureConnector` | connect/connect-lib/lib/src/tunnels.rs:1615-1686 | Returns an existing connector; with one of this identity present it reuses such a one and creates none; when no call fails and the node has connection details, the connector carries exactly those and this identity |
| `TunnelService.Service.FindConnector` | connect/connect-lib/lib/src/tunnels.rs:1549-1592 | Finds a connector of this identity exactly when there is one |
| `TunnelService.Service.CreateTunnel` | connect/connect-lib/lib/src/tunnels.rs:846-940 | On success the new proxy is wired, at the normalised endpoint under its label, and its advertisement names the same connector and the parsed target; a taken name fails; other proxies are untouched |
| `TunnelService.Service.UpdateTunnel` | connect/connect-lib/lib/src/tunnels.rs:1066-1142 | On success the proxy carries exactly the desired state on this service's connector and an existing advertisement follows; if it already did, no patch is sent and no proxy changes; when no call fails it succeeds exactly if the endpoint parses, a connector can be had and the proxy can be read |
| `TunnelService.Service.RetargetTunnel` | connect/connect-lib/lib/src/tunnels.rs:1210-1262 | The endpoint moves; connector, label, connectors and the advertisement's connector stay, whatever fails; falls back to an update only without a connector; sends nothing when already there |
| `TunnelService.Service.SetEnabledTunnel` | connect/connect-lib/lib/src/tunnels.rs:1300-1396 | Enabling wires the proxy to this service's connector and advertises the parsed endpoint, without ever moving endpoint or label; disabling only withdraws the advertisement; an enabled proxy gets no patch |
| `TunnelService.Service.DeleteConnectorIfUnused` | connect/connect-lib/lib/src/tunnels.rs:1694-1742 | Only a connector without a live user goes; on success it is gone or in use; when no call fails its advertisements went with it; proxies stay |
| `TunnelService.Service.DeleteTunnel` | connect/connect-lib/lib/src/tunnels.rs:1451-1545 | On success proxy and advertisement are gone (or marked deleting) and the connector the tunnel used is gone or in use by a live proxy; every connector that went was unused; other proxies are untouched |
| `TunnelService.Service.CleanupOrphans` | connect/connect-lib/lib/src/tunnels.rs:592-650 | Every connector that goes is used by no live proxy, the others are unchanged, and every name reported was there and is gone; when no call failed only connectors in use remain and those that went left no advertisement |
| `TunnelService.Service.UpdateTwice` | connect/connect-lib/lib/src/tunnels.rs:1083-1121 | A second update with the same arguments and connector sends no HTTPProxy patch; the connector is the same whenever one connector carries this identity |
| `TunnelService.Service.EnableTwice` | connect/connect-lib/lib/src/tunnels.rs:1316-1354 | The same for enabling |
| `TunnelService.Service.RetargetTwice` | connect/connect-lib/lib/src/tunnels.rs:1224-1248 | A second retarget to the same endpoint sends no HTTPProxy patch, for any proxy |
| `TunnelService.Service.RetargetAll` | connect/connect-lib/lib/src/tunnels.rs:1892-1903 | Any sequence of retargets, whatever fails, leaves the referenced connector, the label and all connectors unchanged, so the proxy is without its connector afterwards if and only if it was before |
| `TunnelService.WrittenIsSettled` | connect/connect-lib/lib/src/tunnels.rs:1839-1863 | A proxy written by one verb is settled for the other two with the same endpoint and connector |
| `TunnelService.LooseRetargetStaysLoose` | connect/connect-lib/lib/src/tunnels.rs:1892-1903 | The other half: a retarget of a live proxy whose connector is missing writes it and leaves it without one |
| `Json.JsonEqReflexive` | connect/connect-lib/lib/src/edge_policies.rs:134-145 | `json_eq` is reflexive on all JSON trees |
| `Json.JsonEqSymmetric` | connect/connect-lib/lib/src/edge_policies.rs:134-145 | `json_eq` is symmetric although it looks keys up in one direction only |
| `Json.JsonEqTransitive` | connect/connect-lib/lib/src/edge_policies.rs:134-145 | `json_eq` is transitive, numbers compared as 64-bit floats included |
| `Json.NumbersByValue` | connect/connect-lib/lib/src/edge_policies.rs:134-138 | Integers below 2^53 are equal exactly when they are the same integer, and each equals the float of its value and no other |
| `Json.LargeNumbersRound` | connect/connect-lib/lib/src/edge_policies.rs:134-138 | From 2^53 on neighbouring integers can be the same number |
| `Json.LookupsAgree` | connect/connect-lib/lib/src/edge_policies.rs:159-176 | Looking up a key or an index in `json_eq` values gives `json_eq` values and the same presence |
| `Waf.LegacyIsTheDocument` | connect/connect-lib/lib/src/edge_policies.rs:159-197 | A policy is managed exactly if it carries the annotation, and legacy exactly if it does not and, in the fields looked at with their two defaults, equals one literal document |
| `Waf.TheDocumentIsLegacy` | connect/connect-lib/lib/src/edge_policies.rs:159-176 | That document is legacy for its own tunnel and foreign for any other |
| `Waf.ClassifyRespectsJsonEq` | connect/connect-lib/lib/src/edge_policies.rs:125-197 | Policies that are `json_eq` are classified alike |
| `Waf.DesiredSpecMeans` | connect/connect-lib/lib/src/edge_policies.rs:95-117 | The spec written enforces the legacy rule set on everything, scoped to the rule name the tunnel's own proxy gives its protected rule |
| `Waf.NewWafMeans` | connect/connect-lib/lib/src/edge_policies.rs:207-219 | A new policy carries that spec, its label and the annotation |
| `Waf.UpgradeKeeps` | connect/connect-lib/lib/src/edge_policies.rs:224-235 | The upgraded policy is managed, has the current spec and no status, and keeps every other field, metadata entry and annotation |
| `Waf.EveryWriteIsSound` | connect/connect-lib/lib/src/edge_policies.rs:354-418 | Over every interleaving of any number of ensures with portal edits, deletes and recreations: each write that took effect filled an absent policy or replaced one that was, at that moment, the literal legacy document without the annotation, and left the annotated current spec |
| `Waf.DifferentIsKept` | connect/connect-lib/lib/src/edge_policies.rs:354-418 | In any reachable state a stored policy that differs from the document in any one field, or is annotated, survives every step of every ensure |
| `Waf.SettledStays` | connect/connect-lib/lib/src/edge_policies.rs:372-381 | Once the stored policy is not legacy, no ensure, however old its read, changes it before the portal does |
| `Waf.AfterAWriteQuiet` | connect/connect-lib/lib/src/edge_policies.rs:354-418 | After a write by an ensure and with no portal event, every further ensure writes nothing |
| `Waf.AloneItSettles` | connect/connect-lib/lib/src/edge_policies.rs:354-418 | One ensure left alone creates an absent policy, upgrades a legacy one in place and keeps any other |
| `Heartbeat.RunProject` | connect/connect-lib/lib/src/heartbeat.rs:332-559 | For every sequence of API outcomes the trace of calls and sleeps is one an observer of the trace alone accepts, every act reports what its iteration was answered, and each iteration slept exactly once, at its end |
| `Heartbeat.ProperTraces` | connect/connect-lib/lib/src/heartbeat.rs:332-559 | In an accepted trace a renewal names the lease of the connector held then, after that lease was asked for its duration and answered, and after the details given in this iteration were the last ones patched or their patch failed; a lookup happens only when none is held; the hold ends only on a failed connector fetch or a lease 404; details are patched only when they differ from the last successful patch |
| `Heartbeat.ProperSleeps` | connect/connect-lib/lib/src/heartbeat.rs:534-559 | Every sleep is at least one second; the one after a successful renewal is at least half the duration the lease last answered (30 s if none) and below it from 3 s up |
| `Heartbeat.HistoryIsState` | connect/connect-lib/lib/src/heartbeat.rs:270-276 | What the loop caches is determined by the trace: connector held, lease name, duration, last published details |
| `Heartbeat.ProjectLoop.Beat` | connect/connect-lib/lib/src/heartbeat.rs:341-558 | One iteration keeps cache and backoff equal to what the observer knows, ends with its one sleep, and renews the lease when no call fails |
| `Heartbeat.Backoff.Next` | connect/connect-lib/lib/src/heartbeat.rs:667-687 | The k-th wait after a reset is min(2^(k+1), 30) seconds |
| `Heartbeat.RenewsInTime` | connect/connect-lib/lib/src/heartbeat.rs:651-658 | For every jitter the interval is at least one second, and less than the lease for leases of three seconds or more |
| `Heartbeat.SurvivalThresholds` | connect/connect-lib/lib/src/heartbeat.rs:651-687 | Undisturbed renewal stays within the lease if and only if it is at least 3 s; two failures then a success if and only if it is at least 15 s; the default 30 s lease survives two failures and no more |
| `Relays.Select` | connect/connect-lib/lib/src/node.rs:617-684 | For every completion order of the probe tasks the selection is the same function of list and outcomes |
| `Relays.BestAreBest` | connect/connect-lib/lib/src/node.rs:655-684 | That selection has length min(max, n), no duplicates and only listed relays; no relay passed over precedes a chosen one in (latency, url) order; a failed relay is in only if every answering one is, a lost one only if all others are |
| `Relays.FasterIsChosen` | connect/connect-lib/lib/src/node.rs:655-661 | An answering relay that was left out was no faster than any chosen one, and comes later byte by byte when it was as fast |
| `Relays.RankedPermutes` | connect/connect-lib/lib/src/node.rs:643-684 | Ranking reorders the relays and loses none |
| `Relays.SortedUnique` | connect/connect-lib/lib/src/node.rs:655 | The (latency, url) order leaves one sorted listing per multiset, which is what makes completion order invisible |
| `Relays.Dedup` | connect/connect-lib/lib/src/node.rs:600-606 | Each relay once, all of them, in order of first appearance |
| `Tail.TailFile` | connect/connect-lib/daemon/src/logs.rs:239-279 | The result is the last n lines of the whole file whenever byte 0 or more than n newlines were reached, in particular without a failed read when the last 8 MiB hold more than n newlines or are the whole file; in every case at most n lines that are the true final lines; never more than 8 MiB read |
| `Tail.ReadBack` | connect/connect-lib/daemon/src/logs.rs:251-266 | The chunked loop ends with the exact end of the file from `pos`, its newline count, and one of its four stop conditions |
| `Tail.CutLines` | connect/connect-lib/daemon/src/logs.rs:268-276 | Wherever the cut falls, dropping the first fragment leaves true lines, at least one per newline after the first |
| `Tail.StripAnsi` | connect/connect-lib/daemon/src/logs.rs:288-305 | The two nested loops compute the stripping function |
| `Tail.StripKeepsPlainText` | connect/connect-lib/daemon/src/logs.rs:288-305 | Stripping leaves a text alone if and only if it contains no control sequence introducer |
| `Tail.StripSequence` | connect/connect-lib/daemon/src/logs.rs:288-305 | ESC, "[", parameter bytes and a final byte from @ to ~ vanish, and the text before and after is stripped on its own, for every text before in which no sequence is left open |
| `Tail.OpenSequenceSwallows` | connect/connect-lib/daemon/src/logs.rs:288-305 | After a sequence left open that fails: it takes the next introducer's bracket for its end |
| `Tail.LinesMeans` | connect/connect-lib/daemon/src/logs.rs:268-270 | Text up to a newline is a line, without the newline and a carriage return before it; a rest without newline is a line as it is |
| `LogSources.Registry.Serve` | connect/connect-lib/daemon/src/logs.rs:90-117 | Over every interleaving of register and unregister calls and failed writes, with the lock free memory equals disk; a call that reported an error changed neither and one that succeeded is applied |
| `LogSources.Registry.SaveAndRelease` | connect/connect-lib/daemon/src/logs.rs:90-117 | Persist, roll back on failure, release: memory and disk agree afterwards; after a register the name maps to the path given, after an unregister it is absent, other names keep theirs; an error is reported exactly when the write failed and changes nothing; `existed` is right |
| `LogSources.Registry.Save` | connect/connect-lib/daemon/src/auth.rs:204-215 | A temporary file and a rename: the file changes entirely or not at all |
| `Keys.Repo.Serve` | connect/connect-lib/lib/src/repo.rs:168-265 | Over every sequence of lookups, migrations, saves and deletes with failing I/O: no two key files hold one key; the legacy key is on file until a delete of the tunnel that holds it and then never again; a saved key stays the one on file until its tunnel is deleted, and every start of the tunnel until then that gets a key gets that one |
| `Keys.Repo.ListenKey` | connect/connect-lib/lib/src/repo.rs:168-182 | Always a key not on file before, in a timestamped file |
| `Keys.Repo.ListenKeyForProject` | connect/connect-lib/lib/src/repo.rs:193-210 | The key on file, else the legacy key moved here, else a new one |
| `Keys.Repo.ListenKeyForTunnel` | connect/connect-lib/lib/src/repo.rs:224-251 | The key on file, else the legacy key moved here; not found exactly when there is neither |
| `Keys.Repo.ResolveListenKey` | connect/connect-lib/daemon/src/main.rs:493-506 | Generates exactly when neither the tunnel nor the legacy location has a key; the generated key is on file nowhere |
| `Keys.Repo.SaveListenKey` | connect/connect-lib/daemon/src/main.rs:1413-1425 | Saves the generated key; none was saved before in this tunnel's life |
| `Keys.Repo.DeleteTunnelDir` | connect/connect-lib/lib/src/repo.rs:293-299 | Removes the tunnel's key and ends its life; the legacy key goes with it if and only if it was that key |
| `Keys.Repo.LaterStart` | connect/connect-lib/daemon/src/main.rs:1413-1425 | After any operations that do not delete the tunnel, other starts of it included, its next start uses the saved key, rewires nothing and leaves it saved |
| `Keys.LegacyInOnePlace` | connect/connect-lib/lib/src/repo.rs:193-251 | Until its place is deleted the legacy key is on file in exactly one place |
| `Base64Url.RoundTrip` | connect/connect-lib/daemon/src/auth.rs:108-116 | Decoding inverts encoding for all bytes, and encodings stay in the URL-safe alphabet (section 5 of RFC 4648), which has no dot |
| `Base64Url.DecodeIsCanonical` | connect/connect-lib/daemon/src/auth.rs:113-116 | Nothing decodes but what encoding writes |
| `Tokens.ConstantTimeEq` | connect/connect-lib/daemon/src/auth.rs:137-146 | The XOR fold decides equality of byte sequences |
| `Tokens.SplitInvertsJoin` | connect/connect-lib/daemon/src/auth.rs:463-471 | Splitting a bearer at its first dot gives an id without dots and a secret exactly when it is their join |
| `Tokens.ExpiryExact` | connect/connect-lib/daemon/src/auth.rs:318-319 | The stored expiry is the intended one if and only if the 64-bit sum does not wrap; if it wraps the token is expired from the start |
| `Tokens.TtlInSeconds` | connect/connect-lib/daemon/src/auth.rs:318-319 | A time to live is in seconds: when the moment fits in 64 bits the stored expiry is now plus 1000 milliseconds for each |
| `Tokens.TokenStore.MintWaitPresent` | connect/connect-lib/daemon/src/auth.rs:304-403 | A token presented after a while is accepted exactly until its time to live is over, for ever without one, and never for another tunnel |
| `Tokens.TokenStore.MintToken` | connect/connect-lib/daemon/src/auth.rs:304-337 | On success the bearer joins the encoded id and secret and the token is on record; on failure nothing was minted |
| `Tokens.TokenStore.RevokeToken` | connect/connect-lib/daemon/src/auth.rs:362-375 | Revokes the token of that tunnel and id, or reports that there is none |
| `Tokens.TokenStore.DeleteTokens` | connect/connect-lib/daemon/src/auth.rs:380-382 | Deletes tokens of that tunnel only, all of them when the removal completes |
| `Tokens.TokenStore.ValidateSecret` | connect/connect-lib/daemon/src/auth.rs:384-403 | Accepts exactly the secret of a live token of that tunnel |
| `Tokens.TokenStore.Authorize` | connect/connect-lib/daemon/src/auth.rs:463-471 | A bearer is accepted for a tunnel if and only if it was minted for it and is neither revoked, deleted nor past its expiry |
| `Tokens.TokenStore.Serve` | connect/connect-lib/daemon/src/auth.rs:304-403 | Over every sequence of mints, revocations, cascade deletes and clock steps a minted token that stopped being accepted never is again |
| `Progress.AwaitProgress` | connect/connect-lib/bin/src/progress.rs:169-237 | For every poll sequence the report is proper, the last status reported for each kind is the last one polled, and the loop stops at the first poll that decides |
| `Progress.DecideMeans` | connect/connect-lib/lib/src/tunnels.rs:265-300 | Success is an all-ready poll with no terminal failure and nothing else; failure is a poll with a terminal failure; only a poll that is neither is waited through |
| `Progress.DecideByStatus` | connect/connect-lib/lib/src/tunnels.rs:258-300 | By kinds and statuses: success exactly if every step is ready, the metadata step alone also when unknown; failure exactly if the DNS step is pending because another connector owns the record |
| `Progress.Watcher.Handle` | connect/connect-lib/bin/src/progress.rs:193-223 | Handling a step keeps the three maps equal to what polls and report say, subtracts without underflow, and leaves no reminder overdue |
| `Progress.Watcher.Track` | connect/connect-lib/bin/src/progress.rs:202-223 | The pending stretch and the last reminder of the step's kind are tracked exactly, those of other kinds untouched |
| `Progress.RemindersSpaced` | connect/connect-lib/bin/src/progress.rs:202-219 | Two reminders for one kind with no transition between them are at least ten seconds apart |
| `Inspector.TeeAll` | connect/connect-lib/daemon/src/inspector.rs:87-154 | For every way of cutting a body into frames: every frame is forwarded as it came, the capture is the first 64 KiB, truncation is reported exactly when there was more, and completion is signalled at most once, exactly when someone listens and the body ended or failed |
| `Inspector.CaptureSink.Push` | connect/connect-lib/daemon/src/inspector.rs:92-102 | The buffer stays the bounded prefix of everything pushed |
| `Inspector.TeeBody.PollFrame` | connect/connect-lib/daemon/src/inspector.rs:134-154 | One poll passes through unchanged and keeps capture and completion right |
| `Inspector.RecordAll` | connect/connect-lib/daemon/src/inspector.rs:443-463 | After any number of records the list is the newest 50, newest first |
| `Inspector.ExchangeList.Record` | connect/connect-lib/daemon/src/inspector.rs:460-462 | Recording keeps the list the newest 50 of the history |

## Left out

- HTTP routing and handlers, TLS, iroh endpoints, DNS and real probes: I/O over libraries; their outcomes are inputs here.
- `parse_target` and URL parsing: a parameter of the tunnel service; in the lifecycle every target parses or the task fails.
- Tunnel summaries, statuses, tickets and local proxy state returned beside the modelled effects.
- TrafficProtectionPolicy and timeout policy creation: the same read-then-create pattern as the WAF, without its upgrade.
- Server-side defaulting, finalizer timing, connectors deleted by third parties, and orphan cleanup interleaved with another create, which the code does not make safe.
- Request paths that do not start with a slash, query-parameter matches and time-dependent matches in the routing model; regular expressions are an arbitrary predicate.
- Unicode whitespace in endpoint trimming: only ASCII whitespace is trimmed.
- Rule fields the service never writes (backend filters, request header filters): a stored rule that has them reads as one without.
- Log content that changes while it is read, other than reads that fail, and UTF-8 decoding: a newline byte is never absorbed by a replacement.
- Keys.Repo.ListenKeyForTunnel: the window between the legacy file's existence check and its rename is one step that may fail, and key files are never half written, because the daemon serialises starts of one tunnel.
- TunnelService.Service.SetEnabledTunnel: does not include the edge-policy pass it spawns, which `Waf` models on its own.
- TunnelService.Service.CreateTunnel: stops at the advertisement; the policies created after it follow the read-then-create pattern of the WAF.
- Token ids with path separators, and the setup and viewer credentials checked before an operate token.
- SHA-256, randomness and clocks: an injective digest, draws that never repeat, and a clock that runs forward.
- A clock read twice while one polled step is handled: each step has one time.
- The quota retry around creates: a create is one call that may fail.
- The dashboard, the add-on pages, the CLI wiring, pairing and the exclusive-label, state and peer files: user interface, or repeats of the registry pattern.
