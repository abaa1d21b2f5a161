/**
  Consequences of the lifecycle invariants: runs without cut-off repoints, and
  repoints that are cut off.
 */
module LifecycleRuns {
  import opened Text
  import opened Lifecycle
  import opened LifecycleSafety
  import opened LifecycleEndpoints

  /** The event cuts off no repoint after its HTTPProxy patch, fails no target
      write, and repoints no tunnel whose create is still in flight. */
  predicate Clean(s: Daemon, e: Event) {
    match e
    case Advance(tid, c) =>
      tid in s.tasks ==>
        var t := s.tasks[tid];
        && (MidInstall(t) ==> c.ok)
        && (t.Start? && t.pc.Patch? && t.handle.Some? ==> !Creating(s, t.id))
    case Abandon(tid, _) => tid in s.tasks ==> !MidInstall(s.tasks[tid])
    case BootStep(c) => s.boot.Reconciling? && s.boot.step.Resave? ==> c.ok
    case _ => true
  }

  predicate CleanRun(s: Daemon, events: seq<Event>) {
    events == [] ||
    (CleanRun(s, events[..|events| - 1]) && Clean(Run(s, events[..|events| - 1]), events[|events| - 1]))
  }

  predicate WroteIfInstalling(t: Task) {
    && (t.Start? && t.pc.Install? ==> t.pc.saved)
    && (t.Create? && t.create.CreateInstall? ==> t.create.stored)
  }

  ghost predicate Spotless(s: Daemon) {
    && s.world.past == Past({}, {}, {}, multiset{}, {})
    && (forall tid | tid in s.tasks :: WroteIfInstalling(s.tasks[tid]))
    && (s.boot.Reconciling? && s.boot.step.Reinstall? ==> s.boot.step.stored)
  }

  /** Effects that leave the history empty when it is empty. */
  predicate Harmless(e: Effect) {
    && !e.Botched? && !e.Forsaken? && !e.Landed?
    && (e.Repointed? ==> !e.raced)
    && (e.Seated? ==> e.saved && !e.stranded)
  }

  lemma HarmlessKeeps(w: World, e: Effect)
    requires w.past == Past({}, {}, {}, multiset{}, {}) && Harmless(e)
    ensures Perform(w, e).past == w.past
  {
  }

  lemma StartHarmless(s: Daemon, t: Task, c: Choice)
    requires t.Start? && Shape(t) && WroteIfInstalling(t) && (MidInstall(t) ==> c.ok)
    requires t.pc.Patch? && t.handle.Some? ==> !Creating(s, t.id)
    ensures Harmless(StepStart(s, t, c).effect) && WroteIfInstalling(StepStart(s, t, c).task)
  {
    match t.pc
    case Patch | Patched | Save | Install(_) =>
    case EnableRead | EnableWrite | Insert | Audit =>
    case Fetch | Look | Spawn | Key =>
    case _ =>
  }

  lemma OtherHarmless(s: Daemon, t: Task, c: Choice)
    requires !t.Start? && Shape(t) && WroteIfInstalling(t) && (MidInstall(t) ==> c.ok)
    requires s.world.past.raced == {}
    ensures Harmless(StepTask(s, t, c).effect) && WroteIfInstalling(StepTask(s, t, c).task)
  {
  }

  lemma CleanStep(s: Daemon, e: Event)
    requires Safe(s) && Spotless(s) && Clean(s, e)
    ensures Spotless(Step(s, e))
  {
    match e
    case Advance(tid, c) =>
      if tid in s.tasks {
        var t := s.tasks[tid];
        if t.Start? { StartHarmless(s, t, c); } else { OtherHarmless(s, t, c); }
        HarmlessKeeps(s.world, StepTask(s, t, c).effect);
      }
    case BootStep(c) =>
      if s.boot.Reconciling? {
        StepBootFits(s, c);
        HarmlessKeeps(s.world, StepBoot(s, c).0);
      }
    case _ =>
  }

  lemma {:induction false} CleanRunSpotless(s: Daemon, events: seq<Event>)
    requires Safe(s) && Spotless(s) && CleanRun(s, events)
    ensures Safe(Run(s, events)) && Spotless(Run(s, events))
  {
    if events != [] {
      CleanRunSpotless(s, events[..|events| - 1]);
      CleanStep(Run(s, events[..|events| - 1]), events[|events| - 1]);
      StepKeepsSafe(Run(s, events[..|events| - 1]), events[|events| - 1]);
    }
  }

  /** Over every run in which target writes succeed, every repoint's calls either
      all succeed or fail before the HTTPProxy patch, and no tunnel is repointed
      while its create is in flight: a tunnel with an
      installed inspector and an existing proxy, not just then being repointed
      or created, has its proxy at that inspector and its target file equal to
      what the inspector forwards to. */
  lemma CleanRunsServe(proxies: map<TunnelId, string>, persisted: map<TunnelId, string>, events: seq<Event>, id: TunnelId)
    requires CleanRun(Fresh(proxies, persisted), events)
    ensures var s := Run(Fresh(proxies, persisted), events);
      id in s.world.inspectors && id in s.world.proxies && Settled(s, id) && Uncreated(s, id) ==>
        && Canon(s.world.proxies[id]) == InspectorEndpoint(s.world.inspectors[id].port)
        && id in s.world.persisted && s.world.persisted[id] == s.world.inspectors[id].target
  {
    var s := Fresh(proxies, persisted);
    EmptySafe(s);
    CleanRunSpotless(s, events);
    EveryRunPointed(proxies, persisted, events);
    assert IdOk(Run(s, events), id);
  }

  lemma AbandonLeaves(s: Daemon, tid: nat, writing: bool)
    requires tid in s.tasks && s.tasks[tid].Start?
    ensures var s' := Step(s, Abandon(tid, writing));
      s'.world.inspectors == s.world.inspectors && s'.world.proxies == s.world.proxies
  {
  }

  /** Cutting off a repoint between its patch and its install, by an error or a
      dropped request, leaves the old inspector installed and the proxy leading
      elsewhere. */
  lemma CutOffStrands(s: Daemon, tid: nat, writing: bool)
    requires Safe(s) && Pointed(s) && tid in s.tasks && MidRepoint(s.tasks[tid])
    requires s.tasks[tid].id in s.world.inspectors && s.tasks[tid].id in s.world.proxies
    ensures var s', id := Step(s, Abandon(tid, writing)), s.tasks[tid].id;
      && id in s'.world.inspectors && s'.world.inspectors[id] == s.world.inspectors[id]
      && id in s'.world.proxies && Canon(s'.world.proxies[id]) != InspectorEndpoint(s'.world.inspectors[id].port)
  {
    MidRepointElsewhere(s, tid);
    AbandonLeaves(s, tid, writing);
  }
}
