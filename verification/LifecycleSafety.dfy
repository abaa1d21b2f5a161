/**
  Safety of the `busy` reservation and of the running instances, over every
  interleaving of starts, stops, sweeps, deletes, creates, dropped tasks and
  process restarts.
 */
module LifecycleSafety {
  import opened Text
  import opened Lifecycle

  /** Task `tid` is the one that holds `id`. */
  ghost predicate Holder(s: Daemon, tid: nat, id: TunnelId) {
    tid in s.tasks && Holds(s.tasks[tid]) && s.tasks[tid].id == id
  }

  /** `busy` is exactly the set of ids held by in-flight starts and stops, and
      each is held by one task. */
  ghost predicate BusyExact(s: Daemon) {
    && (forall tid, id | Holder(s, tid, id) :: id in s.mem.busy)
    && (forall id | id in s.mem.busy :: exists tid :: Holder(s, tid, id))
    && (forall t1, t2, id | Holder(s, t1, id) && Holder(s, t2, id) :: t1 == t2)
  }

  /** A start between finding its tunnel off and its final insert. */
  predicate Building(t: Task) {
    t.Start? && !t.live && Holds(t) && !t.pc.Fetch? && !t.pc.Look? && !t.pc.Audit?
  }

  /** A start that will insert into `running` sees no live entry there, so the
      insert never overwrites one. */
  ghost predicate NoOverwrite(s: Daemon) {
    forall tid | tid in s.tasks && Building(s.tasks[tid]) :: s.tasks[tid].id !in s.mem.running
  }

  ghost predicate InHand(s: Daemon, tid: nat, n: nat) {
    tid in s.tasks && TakenOf(s.tasks[tid]) == Some(n)
  }

  ghost predicate IsRunning(s: Daemon, id: TunnelId, n: nat) {
    id in s.mem.running && s.mem.running[id] == n
  }

  /** Instance `n` is in exactly one place: running under one id, in the hands
      of one task that will tear it down, or torn down once. */
  ghost predicate OnePlace(s: Daemon, n: nat) {
    && s.mem.torn[n] <= 1
    && (forall i, j | IsRunning(s, i, n) && IsRunning(s, j, n) :: i == j)
    && (forall i, j | InHand(s, i, n) && InHand(s, j, n) :: i == j)
    && (s.mem.torn[n] == 1 ==> (forall i :: !IsRunning(s, i, n)) && (forall t :: !InHand(s, t, n)))
    && (forall i, t :: !(IsRunning(s, i, n) && InHand(s, t, n)))
    && (n < s.mem.next <==> s.mem.torn[n] == 1 || (exists i :: IsRunning(s, i, n)) || (exists t :: InHand(s, t, n)))
  }

  ghost predicate Conserved(s: Daemon) {
    forall n: nat :: OnePlace(s, n)
  }

  // ---- What one step of one task does ----

  /** How a task's program counter constrains its other fields. */
  predicate Shape(t: Task) {
    match t
    case Start(_, wanted, pc, repoint, live, _, handle, _) =>
      && (repoint ==> wanted.Some?) && (handle.Some? ==> repoint)
      && (!Holds(t) || pc.Fetch? || pc.Look? ==> handle.None? && !live)
      && (pc.Spawn? ==> handle.None? && repoint)
      && (pc.Key? ==> !live && handle.Some? == repoint)
      && (pc.Patch? || pc.Patched? ==> handle.Some? == repoint && (live ==> repoint))
      && (pc.Save? || pc.Install? ==> handle.Some?)
      && (pc.EnableRead? || pc.EnableWrite? || pc.Insert? ==> handle.None? && !live)
      && (pc.Audit? ==> handle.None?)
    case Stop(_, pc, taken) => pc.StopClaim? || pc.Take? || pc.StopAudit? ==> taken.None?
    case Delete(_, pc, taken) => !pc.Drain? ==> taken.None?
    case Create(_, pc, _, handle) => handle.Some? == !pc.CreateSpawn?
    case Done(_) => true
  }

  predicate BusyDelta(s: Daemon, t: Task, m: Move) {
    if Holds(t) then
      if Holds(m.task) then m.task.id == t.id && m.mem.busy == s.mem.busy
      else m.mem.busy == s.mem.busy - {t.id}
    else if Holds(m.task) then m.task.id !in s.mem.busy && m.mem.busy == s.mem.busy + {m.task.id}
    else m.mem.busy == s.mem.busy
  }

  /** An insert, a removal, a teardown, or no change to the instances. */
  predicate RunDelta(s: Daemon, t: Task, m: Move)
    requires !t.Done?
  {
    var a, b, x, y := s.mem, m.mem, TakenOf(t), TakenOf(m.task);
    && (Building(m.task) ==> m.task.id == t.id && (Building(t) || t.id !in a.running))
    && (if t.Start? && t.pc.Insert? && m.task.Start? then
          Building(t) && !Building(m.task) && x.None? && y.None? && b.torn == a.torn
          && b.running == a.running[t.id := a.next] && b.next == a.next + 1
        else if x.None? && y.Some? then
          t.id in a.running && y.value == a.running[t.id] && b.torn == a.torn
          && b.running == a.running - {t.id} && b.next == a.next
        else if x.Some? && y.None? then
          b.torn == a.torn + multiset{x.value} && b.running == a.running && b.next == a.next
        else
          x == y && b.torn == a.torn && b.next == a.next
          && (b.running == a.running || (t.id !in a.running && b.running == a.running - {t.id})))
  }

  predicate Delta(s: Daemon, t: Task, m: Move) {
    && !t.Done?
    && Shape(m.task) && BusyDelta(s, t, m) && RunDelta(s, t, m)
  }

  lemma DecideDelta(s: Daemon, t: Task, c: Choice)
    requires t.Start? && !Holds(t) && Shape(t)
    ensures Delta(s, t, StartDecide(s, t, c))
  {
    match t.pc
    case ReadInspectors =>
    case ReadTarget(_) =>
    case CheckRunning =>
    case Claim =>
  }

  lemma PrepareDelta(s: Daemon, t: Task, c: Choice)
    requires t.Start? && (t.pc.Fetch? || t.pc.Look? || t.pc.Spawn? || t.pc.Key?) && Shape(t)
    ensures Delta(s, t, StartPrepare(s, t, c))
  {
  }

  lemma RepointDelta(s: Daemon, t: Task, c: Choice)
    requires t.Start? && (t.pc.Patch? || t.pc.Patched? || t.pc.Save? || t.pc.Install?) && Shape(t)
    ensures Delta(s, t, StartRepoint(s, t, c))
  {
    match t.pc
    case Patch =>
    case Patched =>
    case Save =>
    case Install(_) =>
  }

  lemma EnableDelta(s: Daemon, t: Task, c: Choice)
    requires t.Start? && (t.pc.EnableRead? || t.pc.EnableWrite? || t.pc.Insert? || t.pc.Audit?) && Shape(t)
    ensures Delta(s, t, StartEnable(s, t, c))
  {
  }

  lemma StopDelta(s: Daemon, t: Task, c: Choice)
    requires t.Stop? && Shape(t)
    ensures Delta(s, t, StepStop(s, t, c))
  {
    match t.stop
    case StopClaim =>
    case Take =>
    case Disable =>
    case Deregister(_) =>
    case StopAudit =>
  }

  lemma DeleteDelta(s: Daemon, t: Task, c: Choice)
    requires t.Delete? && Shape(t)
    ensures Delta(s, t, StepDelete(s, t, c))
  {
    match t.del
    case Server =>
    case TakeRunning =>
    case Drain =>
    case DropInspector =>
    case DropTarget =>
  }

  lemma CreateDelta(s: Daemon, t: Task, c: Choice)
    requires t.Create? && Shape(t)
    ensures Delta(s, t, StepCreate(s, t, c))
  {
  }

  lemma DropDelta(s: Daemon, t: Task, writing: bool)
    requires Shape(t) && !t.Done?
    ensures Delta(s, t, DropTask(s, t, writing))
  {
  }

  lemma StepDelta(s: Daemon, t: Task, c: Choice)
    requires Shape(t) && !t.Done?
    ensures Delta(s, t, StepTask(s, t, c))
  {
    match t
    case Start(_, _, pc, _, _, _, _, _) =>
      match pc {
        case Fetch | Look | Spawn | Key => PrepareDelta(s, t, c);
        case Patch | Patched | Save | Install(_) => RepointDelta(s, t, c);
        case EnableRead | EnableWrite | Insert | Audit => EnableDelta(s, t, c);
        case _ => DecideDelta(s, t, c);
      }
    case Stop(_, _, _) => StopDelta(s, t, c);
    case Delete(_, _, _) => DeleteDelta(s, t, c);
    case Create(_, _, _, _) => CreateDelta(s, t, c);
  }

  // ---- busy ----

  lemma ApplyKeepsBusy(s: Daemon, tid: nat, m: Move)
    requires BusyExact(s) && tid in s.tasks && BusyDelta(s, s.tasks[tid], m)
    ensures BusyExact(Apply(s, tid, m))
  {
    var s' := Apply(s, tid, m);
    assert forall t, id | t != tid :: Holder(s', t, id) <==> Holder(s, t, id);
    if Holds(s.tasks[tid]) {
      assert Holder(s, tid, s.tasks[tid].id);
    }
    forall id | id in s'.mem.busy ensures exists t :: Holder(s', t, id) {
      if Holds(m.task) && id == m.task.id {
        assert Holder(s', tid, id);
      } else {
        var t :| Holder(s, t, id);
        assert Holder(s', t, id);
      }
    }
  }

  // ---- instances ----

  /** One step moves one instance between places, and no other instance. */
  lemma ApplyKeepsPlace(s: Daemon, tid: nat, m: Move, n: nat)
    requires Conserved(s) && NoOverwrite(s) && tid in s.tasks && Delta(s, s.tasks[tid], m)
    ensures OnePlace(Apply(s, tid, m), n)
  {
    var s', t := Apply(s, tid, m), s.tasks[tid];
    var x, y := TakenOf(t), TakenOf(m.task);
    assert OnePlace(s, n);
    assert forall u | u != tid :: InHand(s', u, n) <==> InHand(s, u, n);
    if t.Start? && t.pc.Insert? && m.task.Start? {
      assert OnePlace(s, s.mem.next);
      assert forall i | i != t.id :: IsRunning(s', i, n) <==> IsRunning(s, i, n);
      assert IsRunning(s', t.id, n) <==> n == s.mem.next;
      assert !IsRunning(s, t.id, n);
      assert InHand(s', tid, n) <==> InHand(s, tid, n);
    } else if x.None? && y.Some? {
      assert IsRunning(s, t.id, y.value) && InHand(s', tid, y.value);
      assert forall i :: IsRunning(s', i, n) <==> IsRunning(s, i, n) && i != t.id;
      assert InHand(s', tid, n) <==> n == y.value;
    } else {
      assert forall i :: IsRunning(s', i, n) <==> IsRunning(s, i, n);
      assert x.Some? ==> InHand(s, tid, x.value);
      assert InHand(s', tid, n) <==> InHand(s, tid, n) && y.Some?;
      assert forall u :: InHand(s', u, n) ==> InHand(s, u, n);
    }
  }

  lemma ApplyKeepsNoOverwrite(s: Daemon, tid: nat, m: Move)
    requires NoOverwrite(s) && BusyExact(s) && tid in s.tasks && Delta(s, s.tasks[tid], m)
    ensures NoOverwrite(Apply(s, tid, m))
  {
    var s', t := Apply(s, tid, m), s.tasks[tid];
    forall u | u in s'.tasks && Building(s'.tasks[u]) ensures s'.tasks[u].id !in s'.mem.running {
      if u != tid {
        assert Holder(s, u, s.tasks[u].id);
        assert t.Start? && t.pc.Insert? ==> Holder(s, tid, t.id);
      }
    }
  }

  // ---- Every run ----

  ghost predicate Shaped(s: Daemon) {
    forall tid | tid in s.tasks :: Shape(s.tasks[tid])
  }

  ghost predicate Safe(s: Daemon) {
    Shaped(s) && BusyExact(s) && NoOverwrite(s) && Conserved(s)
  }

  lemma TaskStepKeepsSafe(s: Daemon, tid: nat, m: Move)
    requires Safe(s) && tid in s.tasks && Delta(s, s.tasks[tid], m)
    ensures Safe(Apply(s, tid, m))
  {
    ApplyKeepsBusy(s, tid, m);
    ApplyKeepsNoOverwrite(s, tid, m);
    forall n: nat ensures OnePlace(Apply(s, tid, m), n) {
      ApplyKeepsPlace(s, tid, m, n);
    }
  }

  /** Steps that add one idle task, or none, and leave memory alone. */
  lemma IdleKeepsSafe(s: Daemon, s': Daemon, tid: nat, t: Task)
    requires Safe(s) && Shape(t) && !Holds(t) && TakenOf(t).None?
    requires s'.mem == s.mem && (s'.tasks == s.tasks || (tid !in s.tasks && s'.tasks == s.tasks[tid := t]))
    ensures Safe(s')
  {
    assert forall u, id :: Holder(s', u, id) <==> Holder(s, u, id);
    assert forall u, n :: InHand(s', u, n) <==> InHand(s, u, n);
    assert forall i, n :: IsRunning(s', i, n) <==> IsRunning(s, i, n);
    forall n: nat ensures OnePlace(s', n) {
      assert OnePlace(s, n);
    }
  }

  lemma EmptySafe(s: Daemon)
    requires s.mem == Idle() && s.tasks == map[]
    ensures Safe(s)
  {
  }

  lemma StepKeepsSafe(s: Daemon, e: Event)
    requires Safe(s)
    ensures Safe(Step(s, e))
  {
    var s' := Step(s, e);
    match e
    case Advance(tid, c) =>
      if tid in s.tasks && !s.tasks[tid].Done? {
        StepDelta(s, s.tasks[tid], c);
        TaskStepKeepsSafe(s, tid, StepTask(s, s.tasks[tid], c));
      } else if tid in s.tasks {
        assert s'.tasks == s.tasks;
        IdleKeepsSafe(s, s', 0, Done(true));
      }
    case Abandon(tid, writing) =>
      if tid in s.tasks && !s.tasks[tid].Done? {
        DropDelta(s, s.tasks[tid], writing);
        TaskStepKeepsSafe(s, tid, DropTask(s, s.tasks[tid], writing));
      } else if tid in s.tasks {
        assert s'.tasks == s.tasks;
        IdleKeepsSafe(s, s', 0, Done(true));
      }
    case BootStep(c) => BootKeepsSafe(s, c);
    case Restart(_, _) =>
      if s' != s { EmptySafe(s'); }
    case Land(_, _) => IdleKeepsSafe(s, s', 0, Done(true));
    case SpawnStart(tid, id, wanted) => IdleKeepsSafe(s, s', tid, NewStart(id, wanted));
    case SpawnStop(tid, id) => IdleKeepsSafe(s, s', tid, Stop(id, StopClaim, None));
    case SpawnDelete(tid, id) => IdleKeepsSafe(s, s', tid, Delete(id, Server, None));
    case SpawnCreate(tid, target) => IdleKeepsSafe(s, s', tid, Create("", CreateSpawn, target, None));
  }

  lemma BootKeepsSafe(s: Daemon, c: Choice)
    requires Safe(s)
    ensures Safe(Step(s, BootStep(c)))
  {
    if s.boot.Reconciling? {
      var t := if s.boot.todo == [] then Done(true) else NewStart(s.boot.todo[0].id, None);
      IdleKeepsSafe(s, ApplyBoot(s, c), c.port, t);
    }
  }

  lemma {:induction false} RunConcat(s: Daemon, a: seq<Event>, b: seq<Event>)
    ensures Run(s, a + b) == Run(Run(s, a), b)
  {
    if b == [] {
      assert a + b == a;
    } else {
      assert (a + b)[..|a + b| - 1] == a + b[..|b| - 1];
      RunConcat(s, a, b[..|b| - 1]);
    }
  }

  lemma RunOne(s: Daemon, e: Event)
    ensures Run(s, [e]) == Step(s, e)
  {
    assert [e][..0] == [];
  }

  /** Over every run, `busy` is exactly the ids held by in-flight starts and
      stops, no start's insert overwrites a live entry, and every instance is
      running, being torn down by one task, or was torn down once. */
  lemma {:induction false} EveryRunSafe(proxies: map<TunnelId, string>, persisted: map<TunnelId, string>, events: seq<Event>)
    ensures Safe(Run(Fresh(proxies, persisted), events))
  {
    if events == [] {
      EmptySafe(Fresh(proxies, persisted));
    } else {
      EveryRunSafe(proxies, persisted, events[..|events| - 1]);
      StepKeepsSafe(Run(Fresh(proxies, persisted), events[..|events| - 1]), events[|events| - 1]);
    }
  }

  lemma MoveReplacesNoEntry(s: Daemon, tid: nat, m: Move, id: TunnelId)
    requires Safe(s) && tid in s.tasks && Delta(s, s.tasks[tid], m)
    requires id in s.mem.running && id in m.mem.running
    ensures m.mem.running[id] == s.mem.running[id]
  {
    var t := s.tasks[tid];
    assert Building(t) ==> t.id !in s.mem.running;
  }

  /** In every reachable state, whatever happens next, a live entry of `running`
      is kept or removed, never replaced, and no instance was torn down twice. */
  lemma EntriesAreNeverReplaced(proxies: map<TunnelId, string>, persisted: map<TunnelId, string>, events: seq<Event>,
                                e: Event, id: TunnelId, n: nat)
    ensures var s := Run(Fresh(proxies, persisted), events);
      && (id in s.mem.running && id in Step(s, e).mem.running ==> Step(s, e).mem.running[id] == s.mem.running[id])
      && s.mem.torn[n] <= 1
  {
    var s := Run(Fresh(proxies, persisted), events);
    EveryRunSafe(proxies, persisted, events);
    assert OnePlace(s, n);
    if id in s.mem.running && id in Step(s, e).mem.running {
      if e.Advance? && e.tid in s.tasks && !s.tasks[e.tid].Done? {
        StepDelta(s, s.tasks[e.tid], e.choice);
        MoveReplacesNoEntry(s, e.tid, StepTask(s, s.tasks[e.tid], e.choice), id);
      } else if e.Abandon? && e.tid in s.tasks && !s.tasks[e.tid].Done? {
        DropDelta(s, s.tasks[e.tid], e.writing);
        MoveReplacesNoEntry(s, e.tid, DropTask(s, s.tasks[e.tid], e.writing), id);
      }
    }
  }
}
