/**
  Starts with a target, while tasks on other tunnels interleave in any way:
  what a successful start leaves behind, and that repeating it is idle.
 */
module LifecycleStarts {
  import opened Text
  import opened Lifecycle
  import opened LifecycleSafety
  import opened LifecycleEndpoints
  import opened LifecycleApart

  // ---- A start on its way ----

  /** There is an inspector, and the target file names `target`. */
  predicate OnFile(s: Daemon, id: TunnelId, target: string) {
    id in s.world.inspectors && id in s.world.persisted && TrimSlash(s.world.persisted[id]) == TrimSlash(target)
  }

  /** The tunnel is on, at `target` (or its target could not be recorded). */
  predicate Served(s: Daemon, id: TunnelId, target: string) {
    id in s.mem.running && id in s.world.inspectors && (OnFile(s, id, target) || id in s.world.past.unsaved)
  }

  predicate OnCourse(s: Daemon, id: TunnelId, target: string, t: Task) {
    match t
    case Start(i, wanted, pc, repoint, live, _, handle, _) =>
      && Shape(t) && i == id && wanted == Some(target)
      && (handle.Some? ==> handle.value.target == target)
      && (pc.ReadTarget? ==> pc.has == (id in s.world.inspectors))
      && (!pc.ReadInspectors? && !pc.ReadTarget? && !repoint ==> OnFile(s, id, target))
      && (pc == Install(true) ==> Records(s, id, target))
      && (repoint && (pc.EnableRead? || pc.EnableWrite? || pc.Insert? || pc.Audit?) ==>
            id in s.world.inspectors && (OnFile(s, id, target) || id in s.world.past.unsaved))
      && (pc.Audit? || live ==> id in s.mem.running)
    case Done(ok) => ok ==> Served(s, id, target)
    case _ => false
  }

  /** `OnCourse` looks at nothing but the tunnel. */
  lemma CourseOfTunnel(s: Daemon, s': Daemon, id: TunnelId, target: string, t: Task)
    requires OnCourse(s, id, target, t) && TunnelOf(s', id) == TunnelOf(s, id)
    ensures OnCourse(s', id, target, t)
  {
  }

  /** The daemon after a step, as far as `OnCourse` looks. */
  function After(s: Daemon, m: Move): Daemon {
    s.(mem := m.mem, world := Perform(s.world, m.effect))
  }

  lemma RepointStaysOnCourse(s: Daemon, id: TunnelId, target: string, t: Task, c: Choice)
    requires t.Start? && OnCourse(s, id, target, t)
    requires t.pc.Patch? || t.pc.Patched? || t.pc.Save? || t.pc.Install?
    ensures var m := StartRepoint(s, t, c); OnCourse(After(s, m), id, target, m.task)
  {
    RepointDelta(s, t, c);
    match t.pc
    case Patch =>
    case Patched =>
    case Save =>
    case Install(_) =>
  }

  lemma EnableStaysOnCourse(s: Daemon, id: TunnelId, target: string, t: Task, c: Choice)
    requires t.Start? && OnCourse(s, id, target, t)
    requires t.pc.EnableRead? || t.pc.EnableWrite? || t.pc.Insert? || t.pc.Audit?
    ensures var m := StartEnable(s, t, c); OnCourse(After(s, m), id, target, m.task)
  {
    match t.pc
    case EnableRead =>
    case EnableWrite =>
    case Insert =>
    case Audit =>
  }

  lemma PrepareStaysOnCourse(s: Daemon, id: TunnelId, target: string, t: Task, c: Choice)
    requires t.Start? && OnCourse(s, id, target, t)
    requires t.pc.Fetch? || t.pc.Look? || t.pc.Spawn? || t.pc.Key?
    ensures var m := StartPrepare(s, t, c); OnCourse(After(s, m), id, target, m.task)
  {
    match t.pc
    case Fetch =>
    case Look =>
    case Spawn =>
    case Key =>
  }

  lemma DecideStaysOnCourse(s: Daemon, id: TunnelId, target: string, t: Task, c: Choice)
    requires t.Start? && OnCourse(s, id, target, t)
    requires !Holds(t)
    ensures var m := StartDecide(s, t, c); OnCourse(After(s, m), id, target, m.task)
  {
  }

  lemma StartStaysOnCourse(s: Daemon, id: TunnelId, target: string, t: Task, c: Choice)
    requires t.Start? && OnCourse(s, id, target, t)
    ensures var m := StepStart(s, t, c); OnCourse(After(s, m), id, target, m.task)
  {
    match t.pc
    case Patch | Patched | Save | Install(_) => RepointStaysOnCourse(s, id, target, t, c);
    case EnableRead | EnableWrite | Insert | Audit => EnableStaysOnCourse(s, id, target, t, c);
    case Fetch | Look | Spawn | Key => PrepareStaysOnCourse(s, id, target, t, c);
    case _ => DecideStaysOnCourse(s, id, target, t, c);
  }

  lemma StaysOnCourse(s: Daemon, id: TunnelId, target: string, tid: nat, e: Event)
    requires Safe(s) && tid in s.tasks && OnCourse(s, id, target, s.tasks[tid]) && Apart(s, e, tid, id)
    ensures tid in Step(s, e).tasks && OnCourse(Step(s, e), id, target, Step(s, e).tasks[tid])
  {
    var t := s.tasks[tid];
    if e.Advance? && e.tid == tid {
      if t.Start? {
        StepDelta(s, t, e.choice);
        StartStaysOnCourse(s, id, target, t, e.choice);
      }
    } else if t.Start? || t == Done(true) {
      assert !Unused(s, id);
      ApartKeeps(s, e, tid, id);
      CourseOfTunnel(s, Step(s, e), id, target, t);
    } else {
      ApartTask(s, e, tid, id);
    }
  }

  /** A start with a target that succeeds, whatever happens on other tunnels
      meanwhile, leaves the tunnel on and recorded at that target. */
  lemma {:induction false} StartServes(s: Daemon, id: TunnelId, target: string, tid: nat, events: seq<Event>)
    requires Safe(s) && tid in s.tasks && s.tasks[tid] == NewStart(id, Some(target)) && ApartRun(s, events, tid, id)
    ensures var s' := Run(s, events); Safe(s') && tid in s'.tasks && OnCourse(s', id, target, s'.tasks[tid])
  {
    if events != [] {
      var before, e := Run(s, events[..|events| - 1]), events[|events| - 1];
      StartServes(s, id, target, tid, events[..|events| - 1]);
      StaysOnCourse(before, id, target, tid, e);
      StepKeepsSafe(before, e);
    }
  }

  /** In any reachable state: once the start reported success, the tunnel is on,
      and, unless its file could not be written or it is being repointed or
      created again, the installed inspector forwards to the target asked for
      and the proxy leads to that inspector exactly if no repoint stranded it. */
  lemma StartDelivers(proxies: map<TunnelId, string>, persisted: map<TunnelId, string>, earlier: seq<Event>,
                      id: TunnelId, target: string, tid: nat, events: seq<Event>)
    requires var s := Run(Fresh(proxies, persisted), earlier);
      tid in s.tasks && s.tasks[tid] == NewStart(id, Some(target)) && ApartRun(s, events, tid, id)
    ensures var s' := Run(Run(Fresh(proxies, persisted), earlier), events);
      tid in s'.tasks && (s'.tasks[tid] == Done(true) ==>
        && id in s'.mem.running && id in s'.world.inspectors
        && (id in s'.world.proxies && Settled(s', id) ==>
              (LeadsTo(s', id, s'.world.inspectors[id].port) <==> id !in s'.world.past.stranded))
        && (id in s'.world.proxies && Settled(s', id) && Uncreated(s', id) && id !in s'.world.past.unsaved ==>
              TrimSlash(s'.world.inspectors[id].target) == TrimSlash(target)))
  {
    var s := Run(Fresh(proxies, persisted), earlier);
    EveryRunSafe(proxies, persisted, earlier);
    StartServes(s, id, target, tid, events);
    RunConcat(Fresh(proxies, persisted), earlier, events);
    EveryRunPointed(proxies, persisted, earlier + events);
    assert IdOk(Run(s, events), id);
  }

  // ---- Starting again ----

  /** No step of `tid` changed anything but `tid`: no inspector, no patch, no
      file, no reservation. */
  predicate OwnStepsIdle(s: Daemon, events: seq<Event>, tid: nat) {
    events == [] ||
    var before, e := Run(s, events[..|events| - 1]), events[|events| - 1];
    && OwnStepsIdle(s, events[..|events| - 1], tid)
    && (e.Advance? && e.tid == tid ==> Step(before, e).mem == before.mem && Step(before, e).world == before.world)
  }

  /** The repeated start after `n` of its steps. */
  predicate Again(t: Task, id: TunnelId, target: string, n: nat) {
    if n >= 3 then t.Done?
    else t == Start(id, Some(target), if n == 0 then ReadInspectors else if n == 1 then ReadTarget(true) else CheckRunning,
                    false, false, false, None, "")
  }

  lemma AgainSteps(s: Daemon, tid: nat, c: Choice, id: TunnelId, target: string, n: nat)
    requires tid in s.tasks && Again(s.tasks[tid], id, target, n) && id in s.mem.running && OnFile(s, id, target)
    ensures var s' := Step(s, Advance(tid, c));
      s'.mem == s.mem && s'.world == s.world && tid in s'.tasks && Again(s'.tasks[tid], id, target, n + 1)
  {
  }

  /** A start for a tunnel that runs at this target already, with any outcome of
      any call and anything happening on other tunnels: its own steps change
      nothing, the tunnel stays as it is, and three steps end it. */
  lemma {:induction false} StartAgainIsIdle(s: Daemon, id: TunnelId, target: string, tid: nat, events: seq<Event>)
    requires Safe(s) && id in s.mem.running && OnFile(s, id, target)
    requires tid in s.tasks && s.tasks[tid] == NewStart(id, Some(target)) && ApartRun(s, events, tid, id)
    ensures var s' := Run(s, events);
      && Safe(s') && TunnelOf(s', id) == TunnelOf(s, id) && OwnStepsIdle(s, events, tid)
      && tid in s'.tasks && Again(s'.tasks[tid], id, target, OwnSteps(events, tid)) && HandleOf(s'.tasks[tid]).None?
  {
    if events != [] {
      var before, e := Run(s, events[..|events| - 1]), events[|events| - 1];
      StartAgainIsIdle(s, id, target, tid, events[..|events| - 1]);
      StepKeepsSafe(before, e);
      assert TunnelOf(before, id) == TunnelOf(s, id);
      assert id in before.mem.running && OnFile(before, id, target);
      if e.Advance? && e.tid == tid {
        AgainSteps(before, tid, e.choice, id, target, OwnSteps(events[..|events| - 1], tid));
      } else {
        ApartKeeps(before, e, tid, id);
      }
    }
  }

  /** Together: after a start with `target` succeeded and recorded it, a second
      start with the same target is idle, whatever other tunnels do during
      both. */
  lemma RepeatedStartIsIdle(s: Daemon, id: TunnelId, target: string, first: nat, events: seq<Event>, second: nat, more: seq<Event>)
    requires Safe(s) && first in s.tasks && s.tasks[first] == NewStart(id, Some(target)) && ApartRun(s, events, first, id)
    requires var s1 := Run(s, events);
      && first in s1.tasks && s1.tasks[first] == Done(true) && id !in s1.world.past.unsaved
      && s1.boot.Serving? && second !in s1.tasks
      && ApartRun(Step(s1, SpawnStart(second, id, Some(target))), more, second, id)
    ensures var s1 := Run(s, events);
      var s2 := Step(s1, SpawnStart(second, id, Some(target)));
      OwnStepsIdle(s2, more, second) && TunnelOf(Run(s2, more), id) == TunnelOf(s1, id)
  {
    var s1 := Run(s, events);
    var s2 := Step(s1, SpawnStart(second, id, Some(target)));
    StartServes(s, id, target, first, events);
    assert Served(s1, id, target);
    StepKeepsSafe(s1, SpawnStart(second, id, Some(target)));
    assert s2 == Add(s1, second, NewStart(id, Some(target)));
    StartAgainIsIdle(s2, id, target, second, more);
  }

  // ---- Starts come to an end ----

  /** Steps a start has left at most. */
  function Left(t: Task): nat
    requires t.Start?
  {
    match t.pc
    case ReadInspectors => 16
    case ReadTarget(_) => 15
    case CheckRunning => 14
    case Claim => 13
    case Fetch => 12
    case Look => 11
    case Spawn => 10
    case Key => 9
    case Patch => 8
    case Patched => 7
    case Save => 6
    case Install(_) => 5
    case EnableRead => 4
    case EnableWrite => 3
    case Insert => 2
    case Audit => 1
  }

  /** Every call of task `tid` succeeds, and a spawn gets a free port. */
  predicate Smooth(s: Daemon, e: Event, tid: nat) {
    Own(e, tid) ==> e.choice.ok && (tid in s.tasks && s.tasks[tid].Start? && s.tasks[tid].pc.Spawn? ==> Free(s, e.choice.port))
  }

  predicate SmoothRun(s: Daemon, events: seq<Event>, tid: nat) {
    events == [] ||
    (SmoothRun(s, events[..|events| - 1], tid) && Smooth(Run(s, events[..|events| - 1]), events[|events| - 1], tid))
  }

  /** On its way and within its budget after `k` steps, or done well. */
  predicate Nearing(s: Daemon, t: Task, id: TunnelId, k: nat) {
    && id in s.world.proxies
    && (t == Done(true) ||
        (t.Start? && t.id == id && Shape(t) && Left(t) + k <= 16 && (Holds(t) || id !in s.mem.busy)))
  }

  lemma NearingEarly(s: Daemon, t: Task, c: Choice, id: TunnelId, k: nat)
    requires t.Start? && Nearing(s, t, id, k) && c.ok && (t.pc.Spawn? ==> Free(s, c.port))
    requires !Holds(t) || t.pc.Fetch? || t.pc.Look? || t.pc.Spawn? || t.pc.Key?
    ensures var m := StepStart(s, t, c);
      m.effect.Calm? && (m.task == Done(true)
        || (m.task.Start? && m.task.id == id && Left(m.task) < Left(t) && (Holds(m.task) || m.mem.busy == s.mem.busy)))
  {
  }

  lemma NearingLate(s: Daemon, t: Task, c: Choice, id: TunnelId, k: nat)
    requires t.Start? && Nearing(s, t, id, k) && c.ok
    requires Holds(t) && !t.pc.Fetch? && !t.pc.Look? && !t.pc.Spawn? && !t.pc.Key?
    ensures var m := StepStart(s, t, c);
      id in Perform(s.world, m.effect).proxies && (m.task == Done(true)
        || (m.task.Start? && m.task.id == id && Left(m.task) < Left(t) && Holds(m.task)))
  {
    match t.pc
    case Patch =>
    case Patched =>
    case Save =>
    case Install(_) =>
    case EnableRead =>
    case EnableWrite =>
    case Insert =>
    case Audit =>
  }

  lemma NearingSteps(s: Daemon, tid: nat, c: Choice, id: TunnelId, k: nat)
    requires tid in s.tasks && Nearing(s, s.tasks[tid], id, k) && Smooth(s, Advance(tid, c), tid)
    ensures var s' := Step(s, Advance(tid, c)); tid in s'.tasks && Nearing(s', s'.tasks[tid], id, k + 1)
  {
    var t := s.tasks[tid];
    if t.Start? {
      StepDelta(s, t, c);
      if !Holds(t) || t.pc.Fetch? || t.pc.Look? || t.pc.Spawn? || t.pc.Key? {
        NearingEarly(s, t, c, id, k);
      } else {
        NearingLate(s, t, c, id, k);
      }
    }
  }

  /** A start of an existing tunnel that nobody has claimed, with or without a
      target, whose calls succeed, reports success within seventeen of its own
      steps, whatever happens on other tunnels. */
  lemma {:induction false} StartFinishes(s: Daemon, id: TunnelId, wanted: Option<string>, tid: nat, events: seq<Event>)
    requires Safe(s) && tid in s.tasks && s.tasks[tid] == NewStart(id, wanted)
    requires id in s.world.proxies && id !in s.mem.busy && ApartRun(s, events, tid, id) && SmoothRun(s, events, tid)
    ensures var s' := Run(s, events);
      && Safe(s') && tid in s'.tasks && Nearing(s', s'.tasks[tid], id, OwnSteps(events, tid))
      && (OwnSteps(events, tid) >= 17 ==> s'.tasks[tid] == Done(true))
  {
    if events != [] {
      var init, e := events[..|events| - 1], events[|events| - 1];
      var before := Run(s, init);
      StartFinishes(s, id, wanted, tid, init);
      StepKeepsSafe(before, e);
      if Own(e, tid) {
        NearingSteps(before, tid, e.choice, id, OwnSteps(init, tid));
      } else {
        ApartKeeps(before, e, tid, id);
        AsideMemory(before, e, id, 0);
        assert Lookup(Step(before, e).world.proxies, id) == Lookup(before.world.proxies, id);
      }
    }
  }
}
