/**
  What a stop, a delete and a plain start leave behind, while tasks on other
  tunnels interleave in any way.
 */
module LifecycleStops {
  import opened Text
  import opened Lifecycle
  import opened LifecycleSafety
  import opened LifecycleEndpoints
  import opened LifecycleApart

  /** The instance, if there was one, was torn down. */
  predicate Torn(s: Daemon, was: Option<nat>) {
    was.Some? ==> s.mem.torn[was.value] >= 1
  }

  predicate Off(s: Daemon, id: TunnelId) {
    id !in s.mem.running
  }

  /** It was torn down exactly once. */
  predicate TornDown(s: Daemon, was: Option<nat>) {
    was.Some? ==> s.mem.torn[was.value] == 1
  }

  lemma TornOnce(s: Daemon, was: Option<nat>)
    requires Safe(s)
    ensures TornDown(s, was) <==> Torn(s, was)
  {
    assert was.Some? ==> OnePlace(s, was.value);
  }

  // ---- Stop ----

  /** A stop after `k` of its steps: `was` is what ran when it began, `taken`
      whether the tunnel was claimed by someone else, `ok` whether its calls
      succeeded so far. */
  predicate StopAt(s: Daemon, id: TunnelId, t: Task, was: Option<nat>, taken: bool, ok: bool, k: nat) {
    if k == 0 then t == Stop(id, StopClaim, None) && Lookup(s.mem.running, id) == was && (id in s.mem.busy <==> taken)
    else if taken then t == Done(false) && Lookup(s.mem.running, id) == was
    else if k == 1 then t == Stop(id, Take, None) && Lookup(s.mem.running, id) == was
    else
      && Off(s, id)
      && (if k == 2 then t == Stop(id, Disable, was)
          else if k == 3 then t.Stop? && t.stop.Deregister? && t.id == id && t.taken == was && (ok ==> t.stop.disabled)
          else Torn(s, was) && (t.Done? || (k == 4 && t == Stop(id, StopAudit, None))) && (ok ==> t != Done(false)))
  }

  lemma StopSteps(s: Daemon, tid: nat, c: Choice, id: TunnelId, was: Option<nat>, taken: bool, ok: bool, k: nat)
    requires tid in s.tasks && StopAt(s, id, s.tasks[tid], was, taken, ok, k)
    ensures var s' := Step(s, Advance(tid, c));
      tid in s'.tasks && StopAt(s', id, s'.tasks[tid], was, taken, ok && c.ok, k + 1)
  {
  }

  lemma StopStands(s: Daemon, e: Event, tid: nat, id: TunnelId, was: Option<nat>, taken: bool, ok: bool, k: nat)
    requires Safe(s) && tid in s.tasks && StopAt(s, id, s.tasks[tid], was, taken, ok, k) && Apart(s, e, tid, id) && !Own(e, tid)
    ensures tid in Step(s, e).tasks && StopAt(Step(s, e), id, Step(s, e).tasks[tid], was, taken, ok, k)
  {
    AsideMemory(s, e, id, if was.Some? then was.value else 0);
    ApartTask(s, e, tid, id);
  }

  lemma {:induction false} StopRuns(s: Daemon, id: TunnelId, tid: nat, events: seq<Event>)
    requires Safe(s) && tid in s.tasks && s.tasks[tid] == Stop(id, StopClaim, None) && ApartRun(s, events, tid, id)
    ensures var s' := Run(s, events);
      && Safe(s') && tid in s'.tasks
      && StopAt(s', id, s'.tasks[tid], Lookup(s.mem.running, id), id in s.mem.busy, AllOk(events, tid), OwnSteps(events, tid))
  {
    if events != [] {
      var init, e := events[..|events| - 1], events[|events| - 1];
      var before, was, taken := Run(s, init), Lookup(s.mem.running, id), id in s.mem.busy;
      StopRuns(s, id, tid, init);
      StepKeepsSafe(before, e);
      AllOkOneMore(events, tid);
      if Own(e, tid) {
        StopSteps(before, tid, e.choice, id, was, taken, AllOk(init, tid), OwnSteps(init, tid));
      } else {
        StopStands(before, e, tid, id, was, taken, AllOk(init, tid), OwnSteps(init, tid));
      }
    }
  }

  /** A stop that reports success has taken the tunnel off and torn down the
      instance that ran. If nobody had claimed the tunnel, the entry is gone from
      its second step on however it ends, five steps end it, and with its calls
      succeeding they end well; if somebody had, it fails and changes nothing. */
  lemma StopStops(s: Daemon, id: TunnelId, tid: nat, events: seq<Event>)
    requires Safe(s) && tid in s.tasks && s.tasks[tid] == Stop(id, StopClaim, None) && ApartRun(s, events, tid, id)
    ensures tid in Run(s, events).tasks
    ensures var s', was, k := Run(s, events), Lookup(s.mem.running, id), OwnSteps(events, tid);
      var t := s'.tasks[tid];
      && (t == Done(true) ==> id !in s'.mem.running && TornDown(s', was))
      && (id !in s.mem.busy && k >= 2 ==> id !in s'.mem.running && (TakenOf(t) == was || TornDown(s', was)))
      && (id !in s.mem.busy && k >= 5 ==> t.Done? && TornDown(s', was))
      && (id !in s.mem.busy && k >= 5 && AllOk(events, tid) ==> t == Done(true))
      && (id in s.mem.busy && k >= 1 ==> t == Done(false) && Lookup(s'.mem.running, id) == was)
  {
    StopRuns(s, id, tid, events);
    TornOnce(Run(s, events), Lookup(s.mem.running, id));
  }

  /** Dropping the stop after it took the instance tears that down too. */
  lemma DroppedStopStops(s: Daemon, id: TunnelId, tid: nat, events: seq<Event>, writing: bool)
    requires Safe(s) && tid in s.tasks && s.tasks[tid] == Stop(id, StopClaim, None) && ApartRun(s, events, tid, id)
    requires id !in s.mem.busy && OwnSteps(events, tid) >= 2
    ensures var s' := Step(Run(s, events), Abandon(tid, writing));
      id !in s'.mem.running && TornDown(s', Lookup(s.mem.running, id))
  {
    var before, was := Run(s, events), Lookup(s.mem.running, id);
    StopRuns(s, id, tid, events);
    StepKeepsSafe(before, Abandon(tid, writing));
    DropTears(before, id, tid, was, AllOk(events, tid), OwnSteps(events, tid), writing);
    TornOnce(Step(before, Abandon(tid, writing)), was);
  }

  lemma DropTears(s: Daemon, id: TunnelId, tid: nat, was: Option<nat>, ok: bool, k: nat, writing: bool)
    requires k >= 2 && tid in s.tasks && StopAt(s, id, s.tasks[tid], was, false, ok, k)
    ensures var s' := Step(s, Abandon(tid, writing)); id !in s'.mem.running && Torn(s', was)
  {
  }

  // ---- Delete ----

  /** A delete after `k` of its steps. */
  predicate DeleteAt(s: Daemon, id: TunnelId, t: Task, was: Option<nat>, ok: bool, k: nat) {
    if k == 0 then t == Delete(id, Server, None) && Lookup(s.mem.running, id) == was
    else if t == Done(false) then !ok && Lookup(s.mem.running, id) == was
    else if k >= 5 then t == Done(true) && Off(s, id) && Torn(s, was)
    else
      && id !in s.world.proxies
      && (k == 1 ==> t == Delete(id, TakeRunning, None) && Lookup(s.mem.running, id) == was)
      && (k == 2 ==> t == Delete(id, Drain, was) && Off(s, id))
      && (k == 3 ==> t == Delete(id, DropInspector, None) && Off(s, id) && Torn(s, was))
      && (k == 4 ==> t == Delete(id, DropTarget, None) && Off(s, id) && Torn(s, was) && id !in s.world.inspectors)
  }

  lemma DeleteSteps(s: Daemon, tid: nat, c: Choice, id: TunnelId, was: Option<nat>, ok: bool, k: nat)
    requires tid in s.tasks && DeleteAt(s, id, s.tasks[tid], was, ok, k)
    ensures var s' := Step(s, Advance(tid, c));
      tid in s'.tasks && DeleteAt(s', id, s'.tasks[tid], was, ok && c.ok, k + 1)
  {
  }

  lemma DeleteStands(s: Daemon, e: Event, tid: nat, id: TunnelId, was: Option<nat>, ok: bool, k: nat)
    requires Safe(s) && tid in s.tasks && DeleteAt(s, id, s.tasks[tid], was, ok, k) && Apart(s, e, tid, id) && !Own(e, tid)
    ensures tid in Step(s, e).tasks && DeleteAt(Step(s, e), id, Step(s, e).tasks[tid], was, ok, k)
  {
    AsideMemory(s, e, id, if was.Some? then was.value else 0);
    ApartTask(s, e, tid, id);
    if !s.tasks[tid].Done? {
      assert !Unused(s, id);
      AsideKeeps(s, e, id);
      assert Lookup(Step(s, e).world.proxies, id) == Lookup(s.world.proxies, id);
      assert Lookup(Step(s, e).world.inspectors, id) == Lookup(s.world.inspectors, id);
    }
  }

  lemma {:induction false} DeleteRuns(s: Daemon, id: TunnelId, tid: nat, events: seq<Event>)
    requires Safe(s) && tid in s.tasks && s.tasks[tid] == Delete(id, Server, None) && ApartRun(s, events, tid, id)
    ensures var s' := Run(s, events);
      && Safe(s') && tid in s'.tasks
      && DeleteAt(s', id, s'.tasks[tid], Lookup(s.mem.running, id), AllOk(events, tid), OwnSteps(events, tid))
  {
    if events != [] {
      var init, e := events[..|events| - 1], events[|events| - 1];
      var before, was := Run(s, init), Lookup(s.mem.running, id);
      DeleteRuns(s, id, tid, init);
      StepKeepsSafe(before, e);
      AllOkOneMore(events, tid);
      if Own(e, tid) {
        DeleteSteps(before, tid, e.choice, id, was, AllOk(init, tid), OwnSteps(init, tid));
      } else {
        DeleteStands(before, e, tid, id, was, AllOk(init, tid), OwnSteps(init, tid));
      }
    }
  }

  /** Whatever happens on other tunnels: five steps end a delete, well if its
      server call succeeds, and once it ended well the tunnel is off and its
      instance torn down. */
  lemma DeleteEnds(s: Daemon, id: TunnelId, tid: nat, events: seq<Event>)
    requires Safe(s) && tid in s.tasks && s.tasks[tid] == Delete(id, Server, None) && ApartRun(s, events, tid, id)
    ensures tid in Run(s, events).tasks
    ensures var s', was, k := Run(s, events), Lookup(s.mem.running, id), OwnSteps(events, tid);
      && (k >= 5 ==> s'.tasks[tid].Done?)
      && (k >= 5 && AllOk(events, tid) ==> s'.tasks[tid] == Done(true))
      && (s'.tasks[tid] == Done(true) ==> id !in s'.mem.running && TornDown(s', was))
  {
    DeleteRuns(s, id, tid, events);
    TornOnce(Run(s, events), Lookup(s.mem.running, id));
  }

  predicate Gone(s: Daemon, id: TunnelId) {
    id !in s.mem.running && id !in s.world.inspectors && id !in s.world.persisted && id !in s.world.proxies
  }

  /** At the moment a delete ends well, entry, inspector, target file and proxy
      are all gone. */
  lemma DeleteDeletes(s: Daemon, id: TunnelId, tid: nat, events: seq<Event>, e: Event)
    requires Safe(s) && tid in s.tasks && s.tasks[tid] == Delete(id, Server, None) && ApartRun(s, events, tid, id)
    requires Apart(Run(s, events), e, tid, id) && tid in Run(s, events).tasks && !Run(s, events).tasks[tid].Done?
    requires tid in Step(Run(s, events), e).tasks && Step(Run(s, events), e).tasks[tid] == Done(true)
    ensures Gone(Step(Run(s, events), e), id)
  {
    var s' := Run(s, events);
    DeleteRuns(s, id, tid, events);
    if !Own(e, tid) {
      ApartTask(s', e, tid, id);
    }
    LastDeleteStep(s', tid, e.choice, id, Lookup(s.mem.running, id), AllOk(events, tid), OwnSteps(events, tid));
  }

  lemma LastDeleteStep(s: Daemon, tid: nat, c: Choice, id: TunnelId, was: Option<nat>, ok: bool, k: nat)
    requires tid in s.tasks && DeleteAt(s, id, s.tasks[tid], was, ok, k) && !s.tasks[tid].Done?
    ensures var s' := Step(s, Advance(tid, c)); tid in s'.tasks && (s'.tasks[tid] == Done(true) ==> Gone(s', id))
  {
  }

  // ---- A plain start ----

  predicate SameCanon(a: Option<string>, b: Option<string>) {
    (a.None? <==> b.None?) && (a.Some? && b.Some? ==> Canon(a.value) == Canon(b.value))
  }

  /** A start without a target on its way: `was` is the tunnel when it began. */
  predicate PlainAt(was: Tunnel, now: Tunnel, t: Task, id: TunnelId) {
    && (t.Start? || t.Done?)
    && (t.Start? ==>
      && Shape(t) && t.id == id && t.wanted.None? && !t.repoint && !t.live && t.handle.None?
      && (Looking(t) ==> now.proxy.Some? && Canon(t.seen) == Canon(now.proxy.value))
      && (t.pc.Insert? || t.pc.Audit? ==> now.proxy.Some?))
    && (t.Start? || t == Done(true) ==>
      now.inspector == was.inspector && now.file == was.file && SameCanon(now.proxy, was.proxy))
    && (t == Done(true) || (t.Start? && t.pc.Audit?) ==> now.running.Some?)
    && (t == Done(true) ==> now.proxy.Some?)
  }

  lemma PlainDecides(s: Daemon, t: Task, c: Choice, id: TunnelId, was: Tunnel)
    requires t.Start? && PlainAt(was, TunnelOf(s, id), t, id) && !Holds(t)
    ensures var m := StartDecide(s, t, c); PlainAt(was, TunnelOf(s.(mem := m.mem, world := Perform(s.world, m.effect)), id), m.task, id)
  {
  }

  lemma PlainPrepares(s: Daemon, t: Task, c: Choice, id: TunnelId, was: Tunnel)
    requires t.Start? && PlainAt(was, TunnelOf(s, id), t, id) && (t.pc.Fetch? || t.pc.Look? || t.pc.Spawn? || t.pc.Key?)
    ensures var m := StartPrepare(s, t, c); PlainAt(was, TunnelOf(s.(mem := m.mem, world := Perform(s.world, m.effect)), id), m.task, id)
  {
    if id in s.world.proxies {
      NormalizeIdempotent(s.world.proxies[id]);
    }
  }

  lemma PlainPatches(s: Daemon, t: Task, c: Choice, id: TunnelId, was: Tunnel)
    requires t.Start? && PlainAt(was, TunnelOf(s, id), t, id) && (t.pc.Patch? || t.pc.Patched? || t.pc.Save? || t.pc.Install?)
    ensures var m := StartRepoint(s, t, c); PlainAt(was, TunnelOf(s.(mem := m.mem, world := Perform(s.world, m.effect)), id), m.task, id)
  {
    NormalizeIdempotent(t.seen);
  }

  lemma PlainEnables(s: Daemon, t: Task, c: Choice, id: TunnelId, was: Tunnel)
    requires t.Start? && PlainAt(was, TunnelOf(s, id), t, id)
    requires t.pc.EnableRead? || t.pc.EnableWrite? || t.pc.Insert? || t.pc.Audit?
    ensures var m := StartEnable(s, t, c); PlainAt(was, TunnelOf(s.(mem := m.mem, world := Perform(s.world, m.effect)), id), m.task, id)
  {
    if id in s.world.proxies {
      NormalizeIdempotent(s.world.proxies[id]);
    }
    NormalizeIdempotent(t.seen);
  }

  lemma PlainSteps(s: Daemon, tid: nat, c: Choice, id: TunnelId, was: Tunnel)
    requires tid in s.tasks && PlainAt(was, TunnelOf(s, id), s.tasks[tid], id)
    ensures var s' := Step(s, Advance(tid, c)); tid in s'.tasks && PlainAt(was, TunnelOf(s', id), s'.tasks[tid], id)
  {
    var t := s.tasks[tid];
    if t.Start? {
      match t.pc
      case Patch | Patched | Save | Install(_) => PlainPatches(s, t, c, id, was);
      case EnableRead | EnableWrite | Insert | Audit => PlainEnables(s, t, c, id, was);
      case Fetch | Look | Spawn | Key => PlainPrepares(s, t, c, id, was);
      case _ => PlainDecides(s, t, c, id, was);
    }
  }

  /** A plain start, or the resume after a restart, that reports success leaves
      the tunnel on, its inspector and target file as they were, and its proxy
      where it led, whatever happens on other tunnels. */
  lemma {:induction false} PlainStartRuns(s: Daemon, id: TunnelId, tid: nat, events: seq<Event>)
    requires Safe(s) && tid in s.tasks && s.tasks[tid] == NewStart(id, None) && ApartRun(s, events, tid, id)
    ensures var s' := Run(s, events);
      && Safe(s') && tid in s'.tasks && PlainAt(TunnelOf(s, id), TunnelOf(s', id), s'.tasks[tid], id)
      && (s'.tasks[tid] == Done(true) ==> (id in s'.mem.running
            && Lookup(s'.world.inspectors, id) == Lookup(s.world.inspectors, id)
            && Lookup(s'.world.persisted, id) == Lookup(s.world.persisted, id)
            && SameCanon(Lookup(s'.world.proxies, id), Lookup(s.world.proxies, id))))
  {
    if events != [] {
      var init, e := events[..|events| - 1], events[|events| - 1];
      var before := Run(s, init);
      PlainStartRuns(s, id, tid, init);
      StepKeepsSafe(before, e);
      if Own(e, tid) {
        PlainSteps(before, tid, e.choice, id, TunnelOf(s, id));
      } else {
        ApartTask(before, e, tid, id);
        if before.tasks[tid] != Done(false) {
          assert !Unused(before, id);
          AsideKeeps(before, e, id);
        }
      }
    }
  }
}
