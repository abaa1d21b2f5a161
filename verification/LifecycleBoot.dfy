/**
  Restart reconciliation brings a tunnel back: its inspector, its proxy, its
  target file, and a start if it was on, while stops and deletes of other
  tunnels and resumed starts interleave.
 */
module LifecycleBoot {
  import opened Text
  import opened Lifecycle
  import opened LifecycleSafety
  import opened LifecycleEndpoints
  import opened LifecycleApart

  /** A step of the pass whose call succeeds, with a free port for a spawn and a
      new task for a resume; or an event on other tunnels. */
  predicate Smooth(s: Daemon, e: Event, id: TunnelId) {
    match e
    case BootStep(c) =>
      c.ok && (s.boot.Reconciling? ==> (s.boot.step.Respawn? ==> Free(s, c.port)) && (s.boot.step.Resume? ==> c.port !in s.tasks))
    case _ => Aside(s, e, id)
  }

  predicate SmoothRun(s: Daemon, events: seq<Event>, id: TunnelId) {
    events == [] ||
    (SmoothRun(s, events[..|events| - 1], id) && Smooth(Run(s, events[..|events| - 1]), events[|events| - 1], id))
  }

  /** Steps of the pass among the events. */
  function BootSteps(events: seq<Event>): nat {
    if events == [] then 0
    else BootSteps(events[..|events| - 1]) + if events[|events| - 1].BootStep? then 1 else 0
  }

  /** The target a file's text stands for: plain HTTP unless it says otherwise. */
  function Schemed(raw: string): string {
    if "http://" <= raw || "https://" <= raw then raw else "http://" + raw
  }

  /** The tunnel is back: inspector, proxy and file agree on `target`. */
  predicate Revived(s: Daemon, id: TunnelId, target: string) {
    && id in s.world.inspectors && s.world.inspectors[id].target == target
    && LeadsTo(s, id, s.world.inspectors[id].port) && Records(s, id, target)
  }

  /** The pass after `k` steps on the first listed tunnel. */
  predicate BootAt(s: Daemon, todo: seq<Listed>, raw: string, k: nat)
    requires todo != []
  {
    var id, target := todo[0].id, Schemed(raw);
    s.boot.Reconciling? && s.boot.todo == todo && id in s.world.proxies &&
    match k
    case 0 => s.boot.step.Load? && StartsDone(s) && Records(s, id, raw) && Normalize(s.world.proxies[id]) == todo[0].endpoint
    case 1 => s.boot.step == Respawn(target) && Normalize(s.world.proxies[id]) == todo[0].endpoint
    case 2 => s.boot.step.Repoint? && s.boot.step.spare.target == target && Normalize(s.world.proxies[id]) == todo[0].endpoint
    case 3 => s.boot.step.Resave? && s.boot.step.spare.target == target && LeadsTo(s, id, s.boot.step.spare.port)
    case 4 => s.boot.step.Reinstall? && s.boot.step.stored && s.boot.step.spare.target == target
              && LeadsTo(s, id, s.boot.step.spare.port) && Records(s, id, target)
    case 5 => s.boot.step.Resume? && Revived(s, id, target)
    case _ => false
  }

  lemma BootAdvances(s: Daemon, c: Choice, todo: seq<Listed>, raw: string, k: nat)
    requires todo != [] && k < 5 && BootAt(s, todo, raw, k) && Smooth(s, BootStep(c), todo[0].id)
    ensures BootAt(Step(s, BootStep(c)), todo, raw, k + 1)
  {
    var id := todo[0].id;
    if k == 2 {
      InspectorCanon(s.boot.step.spare.port);
      NormalizeIdempotent(InspectorEndpoint(s.boot.step.spare.port));
    }
    match s.boot.step
    case Load =>
    case Respawn(_) =>
    case Repoint(_) =>
    case Resave(_) =>
    case Reinstall(_, _) =>
  }

  /** `BootAt` looks at the pass, the tunnel, and whether starts are left. */
  lemma BootStands(s: Daemon, e: Event, todo: seq<Listed>, raw: string, k: nat)
    requires Safe(s) && todo != [] && BootAt(s, todo, raw, k) && !e.BootStep? && Aside(s, e, todo[0].id)
    ensures BootAt(Step(s, e), todo, raw, k)
  {
    var s', id := Step(s, e), todo[0].id;
    AsideKeeps(s, e, id);
    assert s'.boot == s.boot;
    assert Lookup(s'.world.proxies, id) == Lookup(s.world.proxies, id);
    assert Lookup(s'.world.persisted, id) == Lookup(s.world.persisted, id);
    assert Lookup(s'.world.inspectors, id) == Lookup(s.world.inspectors, id);
    NoNewStart(s, e);
  }

  /** While the pass is on, nobody but the pass makes a start. */
  lemma NoNewStart(s: Daemon, e: Event)
    requires Shaped(s) && s.boot.Reconciling? && !e.BootStep? && !e.Restart?
    ensures StartsDone(s) ==> StartsDone(Step(s, e))
  {
    if e.Advance? && e.tid in s.tasks && !s.tasks[e.tid].Done? {
      StepFits(s, s.tasks[e.tid], e.choice);
    } else if e.Abandon? && e.tid in s.tasks && !s.tasks[e.tid].Done? {
      DropFits(s, s.tasks[e.tid], e.writing);
    }
  }

  lemma {:induction false} BootRuns(s: Daemon, raw: string, events: seq<Event>)
    requires Safe(s) && s.boot.Reconciling? && s.boot.todo != [] && BootAt(s, s.boot.todo, raw, 0)
    requires SmoothRun(s, events, s.boot.todo[0].id) && BootSteps(events) <= 5
    ensures Safe(Run(s, events)) && BootAt(Run(s, events), s.boot.todo, raw, BootSteps(events))
  {
    if events != [] {
      var init, e := events[..|events| - 1], events[|events| - 1];
      BootRuns(s, raw, init);
      StepKeepsSafe(Run(s, init), e);
      if e.BootStep? {
        BootAdvances(Run(s, init), e.choice, s.boot.todo, raw, BootSteps(init));
      } else {
        BootStands(Run(s, init), e, s.boot.todo, raw, BootSteps(init));
      }
    }
  }

  /** In any reachable state in which the pass turns to a tunnel that has a
      proxy and a target file: if its calls succeed, then with its sixth step,
      whatever happens on other tunnels in between, the pass moves on and leaves
      the tunnel with an inspector on the file's target (plain HTTP unless the
      text says otherwise), the proxy at that inspector, that target on file,
      and a start if it was on. */
  lemma RestartRevives(s: Daemon, raw: string, events: seq<Event>, c: Choice)
    requires Safe(s) && Pointed(s) && s.boot.Reconciling? && s.boot.todo != [] && s.boot.step.Load? && StartsDone(s)
    requires var id := s.boot.todo[0].id;
      && id in s.world.proxies && Records(s, id, raw)
      && SmoothRun(s, events, id) && BootSteps(events) == 5 && Smooth(Run(s, events), BootStep(c), id)
    ensures var s', todo := Step(Run(s, events), BootStep(c)), s.boot.todo;
      var id, target := todo[0].id, if "http://" <= raw || "https://" <= raw then raw else "http://" + raw;
      && s'.boot == Reconciling(todo[1..], Load)
      && id in s'.world.inspectors && s'.world.inspectors[id].target == target
      && id in s'.world.persisted && s'.world.persisted[id] == target
      && LeadsTo(s', id, s'.world.inspectors[id].port)
      && (todo[0].enabled ==> c.port in s'.tasks && s'.tasks[c.port] == NewStart(id, None))
  {
    assert ListedOk(s, 0);
    BootRuns(s, raw, events);
  }

  /** A restart puts the first tunnel of its list there. */
  lemma RestartLists(s: Daemon, order: seq<TunnelId>, enabled: set<TunnelId>)
    requires NoDup(order) && order != [] && forall i | 0 <= i < |order| :: order[i] in s.world.proxies
    ensures var s' := Step(s, Restart(order, enabled));
      && s'.boot.Reconciling? && s'.boot.step.Load? && StartsDone(s') && |s'.boot.todo| == |order|
      && (forall i | 0 <= i < |order| :: s'.boot.todo[i].id == order[i] && (s'.boot.todo[i].enabled <==> order[i] in enabled))
      && s'.world.proxies == s.world.proxies && s'.world.persisted == s.world.persisted
  {
  }

  // ---- A restart that does it ----

  function Repeat(c: Choice, n: nat): seq<Event> {
    if n == 0 then [] else Repeat(c, n - 1) + [BootStep(c)]
  }

  lemma {:induction false} RepeatSteps(c: Choice, n: nat)
    ensures BootSteps(Repeat(c, n)) == n
  {
    if n > 0 {
      RepeatSteps(c, n - 1);
      assert Repeat(c, n)[..|Repeat(c, n)| - 1] == Repeat(c, n - 1);
    }
  }

  /** Nobody else is at work, and no inspector is up before the install. */
  predicate Quiet(s: Daemon, n: nat) {
    s.tasks == map[] && (n <= 4 ==> s.world.inspectors == map[])
  }

  lemma QuietSteps(s: Daemon, c: Choice, todo: seq<Listed>, raw: string, n: nat)
    requires todo != [] && n < 5 && BootAt(s, todo, raw, n) && Quiet(s, n) && c.ok
    ensures Smooth(s, BootStep(c), todo[0].id) && Quiet(Step(s, BootStep(c)), n + 1)
  {
    if n == 1 {
      assert Free(s, c.port);
    }
    BootAdvances(s, c, todo, raw, n);
  }

  lemma SmoothOneMore(s: Daemon, events: seq<Event>, e: Event, id: TunnelId)
    requires SmoothRun(s, events, id) && Smooth(Run(s, events), e, id)
    ensures SmoothRun(s, events + [e], id) && Run(s, events + [e]) == Step(Run(s, events), e)
  {
    assert (events + [e])[..|events|] == events;
  }

  lemma {:induction false} QuietRun(s: Daemon, c: Choice, raw: string, n: nat)
    requires Safe(s) && s.boot.Reconciling? && s.boot.todo != [] && BootAt(s, s.boot.todo, raw, 0) && Quiet(s, 0) && c.ok && n <= 5
    ensures SmoothRun(s, Repeat(c, n), s.boot.todo[0].id) && Quiet(Run(s, Repeat(c, n)), n)
    ensures BootAt(Run(s, Repeat(c, n)), s.boot.todo, raw, n)
  {
    if n > 0 {
      var before := Run(s, Repeat(c, n - 1));
      QuietRun(s, c, raw, n - 1);
      QuietSteps(before, c, s.boot.todo, raw, n - 1);
      BootAdvances(before, c, s.boot.todo, raw, n - 1);
      SmoothOneMore(s, Repeat(c, n - 1), BootStep(c), s.boot.todo[0].id);
    }
  }

  /** A machine with one tunnel comes up. */
  lemma RestartReady(proxies: map<TunnelId, string>, persisted: map<TunnelId, string>, id: TunnelId, raw: string)
    requires id in proxies && id in persisted && persisted[id] == raw
    ensures var s := Step(Fresh(proxies, persisted), Restart([id], {id}));
      && Safe(s) && Pointed(s) && Quiet(s, 0) && s.boot.Reconciling? && |s.boot.todo| == 1
      && s.boot.todo[0].id == id && s.boot.todo[0].enabled && BootAt(s, s.boot.todo, raw, 0)
  {
    var s0 := Fresh(proxies, persisted);
    RestartLists(s0, [id], {id});
    EveryRunSafe(proxies, persisted, []);
    EveryRunPointed(proxies, persisted, []);
    StepKeepsSafe(s0, Restart([id], {id}));
    StepKeepsPointed(s0, Restart([id], {id}));
    assert ListedOk(Step(s0, Restart([id], {id})), 0);
  }

  /** A machine comes up with one tunnel that was on: six steps of the pass bring
      it back and start it. */
  lemma RestartHappens(proxies: map<TunnelId, string>, persisted: map<TunnelId, string>, id: TunnelId, raw: string, c: Choice)
    requires id in proxies && id in persisted && persisted[id] == raw && c.ok
    ensures var s := Step(Fresh(proxies, persisted), Restart([id], {id}));
      var s' := Step(Run(s, Repeat(c, 5)), BootStep(c));
      Revived(s', id, Schemed(raw)) && s'.boot == Reconciling([], Load) && c.port in s'.tasks && s'.tasks[c.port] == NewStart(id, None)
  {
    RestartReady(proxies, persisted, id, raw);
    RevivedBy(Step(Fresh(proxies, persisted), Restart([id], {id})), raw, c, 5);
  }

  lemma RevivedBy(s: Daemon, raw: string, c: Choice, n: nat)
    requires Safe(s) && Pointed(s) && Quiet(s, 0) && s.boot.Reconciling? && |s.boot.todo| == 1 && s.boot.todo[0].enabled
    requires BootAt(s, s.boot.todo, raw, 0) && c.ok && n == 5
    ensures var s', id := Step(Run(s, Repeat(c, n)), BootStep(c)), s.boot.todo[0].id;
      Revived(s', id, Schemed(raw)) && s'.boot == Reconciling([], Load) && c.port in s'.tasks && s'.tasks[c.port] == NewStart(id, None)
  {
    QuietRun(s, c, raw, n);
    RepeatSteps(c, n);
    RestartRevives(s, raw, Repeat(c, n), c);
    assert s.boot.todo[1..] == [];
  }
}
