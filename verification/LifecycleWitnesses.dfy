/**
  Runs that show the premises of the endpoint property are needed: a repoint
  cut off after its patch, a create that overtakes a repoint, a target write
  that fails, and a detached write that lands late.
 */
module LifecycleWitnesses {
  import opened Text
  import opened Lifecycle
  import opened LifecycleSafety
  import opened LifecycleEndpoints

  /** Every call succeeds; `port` is the port a spawn gets, `name` the name the
      server generates. */
  function Go(port: nat, name: TunnelId): Choice {
    Choice(true, false, port, name, None)
  }

  function Times(e: Event, n: nat): seq<Event> {
    if n == 0 then [] else Times(e, n - 1) + [e]
  }

  lemma RunTimes(s: Daemon, e: Event, n: nat)
    requires n > 0
    ensures Run(s, Times(e, n)) == Step(Run(s, Times(e, n - 1)), e)
  {
    RunConcat(s, Times(e, n - 1), [e]);
    RunOne(Run(s, Times(e, n - 1)), e);
  }

  /** `s` with other memory and world, and task `tid` at `t`. */
  function Set(s: Daemon, mem: Memory, world: World, tid: nat, t: Task): Daemon {
    Daemon(mem, world, s.tasks[tid := t], s.boot)
  }

  /** One step of task `tid`, given what its step computes. */
  lemma SetStep(s: Daemon, mem: Memory, world: World, tid: nat, t: Task, c: Choice, m: Move)
    requires m == StepTask(Set(s, mem, world, tid, t), t, c)
    ensures Step(Set(s, mem, world, tid, t), Advance(tid, c)) == Set(s, m.mem, Perform(world, m.effect), tid, m.task)
  {
    assert s.tasks[tid := t][tid := m.task] == s.tasks[tid := m.task];
  }

  // ---- A create ----

  function CreateEvents(tid: nat, id: TunnelId, port: nat, target: string, n: nat): seq<Event> {
    [SpawnCreate(tid, target)] + Times(Advance(tid, Go(port, id)), n)
  }

  function Creator(id: TunnelId, pc: CreatePc, port: nat, target: string): Task {
    Create(id, pc, target, Some(Handle(port, target)))
  }

  lemma CreatorSpawns(s: Daemon, tid: nat, id: TunnelId, port: nat, target: string)
    requires tid !in s.tasks && Free(s, port)
    ensures Step(Set(s, s.mem, s.world, tid, Create("", CreateSpawn, target, None)), Advance(tid, Go(port, id)))
      == Set(s, s.mem, s.world, tid, Creator("", CreateServer, port, target))
  {
    var t := Create("", CreateSpawn, target, None);
    var d := Set(s, s.mem, s.world, tid, t);
    assert Free(d, port);
    SetStep(s, s.mem, s.world, tid, t, Go(port, id), StepCreate(d, t, Go(port, id)));
  }

  lemma CreatorMakes(s: Daemon, tid: nat, id: TunnelId, port: nat, target: string)
    requires tid !in s.tasks && Unused(s, id) && id != ""
    ensures Step(Set(s, s.mem, s.world, tid, Creator("", CreateServer, port, target)), Advance(tid, Go(port, id)))
      == Set(s, s.mem, Perform(s.world, Made(id, port)), tid, Creator(id, CreateSave, port, target))
  {
    var t := Creator("", CreateServer, port, target);
    var d := Set(s, s.mem, s.world, tid, t);
    assert Unused(d, id);
    SetStep(s, s.mem, s.world, tid, t, Go(port, id), StepCreate(d, t, Go(port, id)));
  }

  lemma CreatorSaves(s: Daemon, w: World, tid: nat, id: TunnelId, port: nat, target: string)
    ensures Step(Set(s, s.mem, w, tid, Creator(id, CreateSave, port, target)), Advance(tid, Go(port, id)))
      == Set(s, s.mem, Perform(w, Saved(id, target)), tid, Creator(id, CreateInstall(true), port, target))
  {
    var t := Creator(id, CreateSave, port, target);
    SetStep(s, s.mem, w, tid, t, Go(port, id), StepCreate(Set(s, s.mem, w, tid, t), t, Go(port, id)));
  }

  /** The world once a create has made its proxy and written its target. */
  function MadeWorld(w: World, id: TunnelId, port: nat, target: string): World {
    Perform(Perform(w, Made(id, port)), Saved(id, target))
  }

  /** Three steps bring a create to its install. */
  lemma CreateWrites(s: Daemon, tid: nat, id: TunnelId, port: nat, target: string)
    requires s.boot.Serving? && tid !in s.tasks && Free(s, port) && Unused(s, id) && id != ""
    ensures Run(s, CreateEvents(tid, id, port, target, 3)) ==
      Set(s, s.mem, MadeWorld(s.world, id, port, target), tid, Creator(id, CreateInstall(true), port, target))
  {
    var e, first := Advance(tid, Go(port, id)), SpawnCreate(tid, target);
    var s0 := Step(s, first);
    assert s0 == Set(s, s.mem, s.world, tid, Create("", CreateSpawn, target, None));
    RunConcat(s, [first], Times(e, 3));
    RunOne(s, first);
    RunTimes(s0, e, 3);
    RunTimes(s0, e, 2);
    RunTimes(s0, e, 1);
    assert Run(s0, Times(e, 0)) == s0;
    CreatorSpawns(s, tid, id, port, target);
    CreatorMakes(s, tid, id, port, target);
    CreatorSaves(s, Perform(s.world, Made(id, port)), tid, id, port, target);
  }

  // ---- A start with a target ----

  function StartEvents(tid: nat, id: TunnelId, port: nat, target: string, n: nat): seq<Event> {
    [SpawnStart(tid, id, Some(target))] + Times(Advance(tid, Go(port, "")), n)
  }

  /** A tunnel that is off and wants another target. */
  predicate Startable(s: Daemon, tid: nat, id: TunnelId, port: nat, target: string) {
    && s.boot.Serving? && tid !in s.tasks && id in s.world.proxies
    && id !in s.mem.running && id !in s.mem.busy && Free(s, port)
    && NeedsRepoint(id in s.world.inspectors, if id in s.world.persisted then Some(s.world.persisted[id]) else None, target)
  }

  /** The task after `n` of its steps. */
  function Starter(s: Daemon, id: TunnelId, port: nat, target: string, n: nat): Task
    requires id in s.world.proxies && n <= 12
  {
    var seen := if n <= 4 then "" else Normalize(s.world.proxies[id]);
    var pc := if n == 0 then ReadInspectors else if n == 1 then ReadTarget(id in s.world.inspectors)
              else if n == 2 then CheckRunning else if n == 3 then Claim else if n == 4 then Fetch
              else if n == 5 then Look else if n == 6 then Spawn else if n == 7 then Key else if n == 8 then Patch
              else if n == 9 then Patched else if n == 10 then Save else if n == 11 then Install(true) else EnableRead;
    Start(id, Some(target), pc, n >= 2, false, false, if 7 <= n <= 11 then Some(Handle(port, target)) else None, seen)
  }

  function MemAfter(s: Daemon, id: TunnelId, n: nat): Memory {
    if n >= 4 then Reserve(s.mem, id) else s.mem
  }

  function PatchedWorld(s: Daemon, id: TunnelId, port: nat): World {
    Perform(s.world, Repointed(id, port, Creating(s, id)))
  }

  /** The world after `n` steps: the ninth is the patch, the eleventh the target
      write, the twelfth the install. */
  function WorldAfter(s: Daemon, id: TunnelId, port: nat, target: string, n: nat): World {
    if n < 9 then s.world
    else if n < 11 then PatchedWorld(s, id, port)
    else if n == 11 then Perform(PatchedWorld(s, id, port), Saved(id, target))
    else Perform(Perform(PatchedWorld(s, id, port), Saved(id, target)), Seated(id, Handle(port, target), true, false))
  }

  function StartedAt(s: Daemon, tid: nat, id: TunnelId, port: nat, target: string, n: nat): Daemon
    requires id in s.world.proxies && n <= 12
  {
    Set(s, MemAfter(s, id, n), WorldAfter(s, id, port, target, n), tid, Starter(s, id, port, target, n))
  }

  lemma CreatingStands(s: Daemon, mem: Memory, world: World, tid: nat, t: Task, id: TunnelId)
    requires tid !in s.tasks && t.Start?
    ensures Creating(Set(s, mem, world, tid, t), id) == Creating(s, id)
  {
    var s' := Set(s, mem, world, tid, t);
    assert forall u | u != tid :: (u in s'.tasks <==> u in s.tasks) && (u in s.tasks ==> s'.tasks[u] == s.tasks[u]);
  }

  lemma StarterDecides(s: Daemon, tid: nat, id: TunnelId, port: nat, target: string, n: nat)
    requires Startable(s, tid, id, port, target) && n < 4
    ensures Step(StartedAt(s, tid, id, port, target, n), Advance(tid, Go(port, ""))) == StartedAt(s, tid, id, port, target, n + 1)
  {
    var d, t := StartedAt(s, tid, id, port, target, n), Starter(s, id, port, target, n);
    SetStep(s, s.mem, s.world, tid, t, Go(port, ""), StartDecide(d, t, Go(port, "")));
  }

  lemma StarterPrepares(s: Daemon, tid: nat, id: TunnelId, port: nat, target: string, n: nat)
    requires Startable(s, tid, id, port, target) && 4 <= n < 8
    ensures Step(StartedAt(s, tid, id, port, target, n), Advance(tid, Go(port, ""))) == StartedAt(s, tid, id, port, target, n + 1)
  {
    var d, t := StartedAt(s, tid, id, port, target, n), Starter(s, id, port, target, n);
    if n == 6 {
      assert Free(d, port);
    }
    SetStep(s, Reserve(s.mem, id), s.world, tid, t, Go(port, ""), StartPrepare(d, t, Go(port, "")));
  }

  lemma StarterPatches(s: Daemon, tid: nat, id: TunnelId, port: nat, target: string)
    requires Startable(s, tid, id, port, target)
    ensures Step(StartedAt(s, tid, id, port, target, 8), Advance(tid, Go(port, ""))) == StartedAt(s, tid, id, port, target, 9)
  {
    var d, t := StartedAt(s, tid, id, port, target, 8), Starter(s, id, port, target, 8);
    CreatingStands(s, Reserve(s.mem, id), s.world, tid, t, id);
    SetStep(s, Reserve(s.mem, id), s.world, tid, t, Go(port, ""), StartRepoint(d, t, Go(port, "")));
  }

  lemma StarterInstalls(s: Daemon, tid: nat, id: TunnelId, port: nat, target: string, n: nat)
    requires Startable(s, tid, id, port, target) && 9 <= n < 12
    ensures Step(StartedAt(s, tid, id, port, target, n), Advance(tid, Go(port, ""))) == StartedAt(s, tid, id, port, target, n + 1)
  {
    var d, t := StartedAt(s, tid, id, port, target, n), Starter(s, id, port, target, n);
    SetStep(s, Reserve(s.mem, id), WorldAfter(s, id, port, target, n), tid, t, Go(port, ""), StartRepoint(d, t, Go(port, "")));
  }

  /** Every prefix of a start's first twelve steps, up to the install. */
  lemma {:induction false} StartRuns(s: Daemon, tid: nat, id: TunnelId, port: nat, target: string, n: nat)
    requires Startable(s, tid, id, port, target) && n <= 12
    ensures Run(s, StartEvents(tid, id, port, target, n)) == StartedAt(s, tid, id, port, target, n)
  {
    var e, first := Advance(tid, Go(port, "")), SpawnStart(tid, id, Some(target));
    if n == 0 {
      assert [first] + Times(e, 0) == [first];
      RunOne(s, first);
    } else {
      StartRuns(s, tid, id, port, target, n - 1);
      RunConcat(s, [first], Times(e, n));
      RunConcat(s, [first], Times(e, n - 1));
      RunTimes(Run(s, [first]), e, n);
      if n <= 4 {
        StarterDecides(s, tid, id, port, target, n - 1);
      } else if n <= 8 {
        StarterPrepares(s, tid, id, port, target, n - 1);
      } else if n == 9 {
        StarterPatches(s, tid, id, port, target);
      } else {
        StarterInstalls(s, tid, id, port, target, n - 1);
      }
    }
  }

  // ---- The runs ----

  /** A machine on which the server may name the next tunnel `id`, two distinct
      ports, and two targets that differ by more than trailing slashes. */
  predicate Setting(proxies: map<TunnelId, string>, id: TunnelId, p: nat, q: nat, x: string, y: string) {
    id !in proxies && id != "" && p != q && TrimSlash(x) != TrimSlash(y)
  }

  lemma Leads(s: Daemon, id: TunnelId, p: nat, q: nat)
    requires p != q && id in s.world.proxies && s.world.proxies[id] == Normalize(InspectorEndpoint(q))
    ensures LeadsTo(s, id, q) && !LeadsTo(s, id, p)
  {
    InspectorCanon(q);
    NormalizeIdempotent(InspectorEndpoint(q));
    if InspectorEndpoint(p) == InspectorEndpoint(q) {
      InspectorInjective(p, q);
    }
  }

  /** The state after a whole create on a fresh machine. */
  function Created(proxies: map<TunnelId, string>, persisted: map<TunnelId, string>, id: TunnelId, p: nat, x: string): Daemon {
    var s := Fresh(proxies, persisted);
    Set(s, s.mem, Perform(MadeWorld(s.world, id, p, x), Seated(id, Handle(p, x), true, false)), 0, Done(true))
  }

  lemma CreateInstalls(s: Daemon, w: World, tid: nat, id: TunnelId, p: nat, x: string)
    ensures Step(Set(s, s.mem, w, tid, Creator(id, CreateInstall(true), p, x)), Advance(tid, Go(p, id)))
      == Set(s, s.mem, Perform(w, Seated(id, Handle(p, x), true, id in w.past.raced)), tid, Done(true))
  {
    var t := Creator(id, CreateInstall(true), p, x);
    SetStep(s, s.mem, w, tid, t, Go(p, id), StepCreate(Set(s, s.mem, w, tid, t), t, Go(p, id)));
  }

  lemma CreateRuns(proxies: map<TunnelId, string>, persisted: map<TunnelId, string>, id: TunnelId, p: nat, x: string)
    requires id !in proxies && id != ""
    ensures Run(Fresh(proxies, persisted), CreateEvents(0, id, p, x, 4)) == Created(proxies, persisted, id, p, x)
  {
    var s, e, first := Fresh(proxies, persisted), Advance(0, Go(p, id)), [SpawnCreate(0, x)];
    CreateWrites(s, 0, id, p, x);
    CreateInstalls(s, MadeWorld(s.world, id, p, x), 0, id, p, x);
    RunConcat(s, first, Times(e, 4));
    RunConcat(s, first, Times(e, 3));
    RunTimes(Run(s, first), e, 4);
  }

  lemma CreatedIsStartable(proxies: map<TunnelId, string>, persisted: map<TunnelId, string>, id: TunnelId, p: nat, q: nat, x: string, y: string)
    requires Setting(proxies, id, p, q, x, y)
    ensures Startable(Created(proxies, persisted, id, p, x), 1, id, q, y)
    ensures var s := Created(proxies, persisted, id, p, x);
      && AllDone(s) && id in s.world.inspectors && s.world.inspectors[id] == Handle(p, x)
      && Records(s, id, x)
  {
  }

  /** A tunnel is created at `x`; a start with `y` is cut off right after its
      patch. */
  function CutOffRun(id: TunnelId, p: nat, q: nat, x: string, y: string): seq<Event> {
    CreateEvents(0, id, p, x, 4) + StartEvents(1, id, q, y, 9) + [Abandon(1, false)]
  }

  lemma RunThree(s: Daemon, a: seq<Event>, b: seq<Event>, e: Event, s1: Daemon, s2: Daemon)
    requires Run(s, a) == s1 && Run(s1, b) == s2
    ensures Run(s, a + b + [e]) == Step(s2, e)
  {
    RunConcat(s, a, b);
    RunConcat(s, a + b, [e]);
    RunOne(s2, e);
  }

  /** A whole create, `n` steps of a start, one more event. */
  lemma AfterCreate(proxies: map<TunnelId, string>, persisted: map<TunnelId, string>, id: TunnelId, p: nat, q: nat, x: string, y: string,
                    n: nat, e: Event)
    requires Setting(proxies, id, p, q, x, y) && n <= 12
    ensures Run(Fresh(proxies, persisted), CreateEvents(0, id, p, x, 4) + StartEvents(1, id, q, y, n) + [e])
      == Step(StartedAt(Created(proxies, persisted, id, p, x), 1, id, q, y, n), e)
  {
    var s1 := Created(proxies, persisted, id, p, x);
    CreateRuns(proxies, persisted, id, p, x);
    CreatedIsStartable(proxies, persisted, id, p, q, x, y);
    StartRuns(s1, 1, id, q, y, n);
    RunThree(Fresh(proxies, persisted), CreateEvents(0, id, p, x, 4), StartEvents(1, id, q, y, n), e, s1, StartedAt(s1, 1, id, q, y, n));
  }

  lemma DuringCreate(proxies: map<TunnelId, string>, persisted: map<TunnelId, string>, id: TunnelId, p: nat, q: nat, x: string, y: string,
                     n: nat, e: Event)
    requires Setting(proxies, id, p, q, x, y) && n <= 12
    ensures Run(Fresh(proxies, persisted), CreateEvents(0, id, p, x, 3) + StartEvents(1, id, q, y, n) + [e])
      == Step(StartedAt(MidCreation(proxies, persisted, id, p, x), 1, id, q, y, n), e)
  {
    var s0, s1 := Fresh(proxies, persisted), MidCreation(proxies, persisted, id, p, x);
    CreateWrites(s0, 0, id, p, x);
    CreatingIsStartable(proxies, persisted, id, p, q, x, y);
    StartRuns(s1, 1, id, q, y, n);
    RunThree(s0, CreateEvents(0, id, p, x, 3), StartEvents(1, id, q, y, n), e, s1, StartedAt(s1, 1, id, q, y, n));
  }

  predicate AllDone(s: Daemon) {
    forall tid | tid in s.tasks :: s.tasks[tid].Done?
  }

  /** Dropping a start right after its patch. */
  lemma DroppedAfterPatch(s: Daemon, tid: nat, id: TunnelId, port: nat, target: string, n: nat)
    requires Startable(s, tid, id, port, target)
    requires n == 9
    ensures var s' := Step(StartedAt(s, tid, id, port, target, n), Abandon(tid, false));
      && s'.world.inspectors == s.world.inspectors && (AllDone(s) ==> AllDone(s'))
      && id in s'.world.proxies && s'.world.proxies[id] == Normalize(InspectorEndpoint(port))
  {
  }

  lemma StrandedBy(s: Daemon, id: TunnelId, p: nat, q: nat, x: string, y: string, n: nat)
    requires n == 9 && p != q && Startable(s, 1, id, q, y) && AllDone(s)
    requires id in s.world.inspectors && s.world.inspectors[id] == Handle(p, x)
    ensures var s' := Step(StartedAt(s, 1, id, q, y, n), Abandon(1, false));
      && AllDone(s') && id in s'.world.inspectors && s'.world.inspectors[id] == Handle(p, x)
      && LeadsTo(s', id, q) && !LeadsTo(s', id, p)
  {
    DroppedAfterPatch(s, 1, id, q, y, n);
    Leads(Step(StartedAt(s, 1, id, q, y, n), Abandon(1, false)), id, p, q);
  }

  /** Nobody is at work any more, and the proxy leads away from the installed
      inspector. */
  lemma CutOffHappens(proxies: map<TunnelId, string>, persisted: map<TunnelId, string>, id: TunnelId, p: nat, q: nat, x: string, y: string)
    requires Setting(proxies, id, p, q, x, y)
    ensures var s := Run(Fresh(proxies, persisted), CutOffRun(id, p, q, x, y));
      && AllDone(s) && id in s.world.inspectors && s.world.inspectors[id] == Handle(p, x)
      && LeadsTo(s, id, q) && !LeadsTo(s, id, p)
  {
    CreatedIsStartable(proxies, persisted, id, p, q, x, y);
    AfterCreate(proxies, persisted, id, p, q, x, y, 9, Abandon(1, false));
    StrandedBy(Created(proxies, persisted, id, p, x), id, p, q, x, y, 9);
  }

  /** A create is about to install; a whole repoint of its tunnel goes through
      first. */
  function OvertakenRun(id: TunnelId, p: nat, q: nat, x: string, y: string): seq<Event> {
    CreateEvents(0, id, p, x, 3) + StartEvents(1, id, q, y, 12) + [Advance(0, Go(p, id))]
  }

  /** The state of the fresh machine when the create is about to install. */
  function MidCreation(proxies: map<TunnelId, string>, persisted: map<TunnelId, string>, id: TunnelId, p: nat, x: string): Daemon {
    var s := Fresh(proxies, persisted);
    Set(s, s.mem, MadeWorld(s.world, id, p, x), 0, Creator(id, CreateInstall(true), p, x))
  }

  lemma CreatingIsStartable(proxies: map<TunnelId, string>, persisted: map<TunnelId, string>, id: TunnelId, p: nat, q: nat, x: string, y: string)
    requires Setting(proxies, id, p, q, x, y)
    ensures Startable(MidCreation(proxies, persisted, id, p, x), 1, id, q, y)
    ensures Creating(MidCreation(proxies, persisted, id, p, x), id)
  {
    var s := MidCreation(proxies, persisted, id, p, x);
    assert s.tasks[0].Create? && MidInstall(s.tasks[0]);
  }

  /** The create's install replaces the inspector the repoint installed. */
  lemma InstallOverwrites(s: Daemon, id: TunnelId, p: nat, q: nat, x: string, y: string, n: nat)
    requires n == 12 && Startable(s, 1, id, q, y) && 0 in s.tasks && s.tasks[0] == Creator(id, CreateInstall(true), p, x)
    ensures var d := StartedAt(s, 1, id, q, y, n);
      Step(d, Advance(0, Go(p, id))) == Apply(d, 0, Move(d.mem, Seated(id, Handle(p, x), true, id in d.world.past.raced), Done(true)))
  {
    assert StartedAt(s, 1, id, q, y, n).tasks[0] == Creator(id, CreateInstall(true), p, x);
  }

  lemma OvertakenWorld(s: Daemon, id: TunnelId, p: nat, q: nat, x: string, y: string, n: nat)
    requires n == 12 && p != q && Startable(s, 1, id, q, y) && 0 in s.tasks && s.tasks[0] == Creator(id, CreateInstall(true), p, x)
    ensures var s' := Step(StartedAt(s, 1, id, q, y, n), Advance(0, Go(p, id)));
      && id in s'.world.inspectors && s'.world.inspectors[id] == Handle(p, x)
      && LeadsTo(s', id, q) && !LeadsTo(s', id, p) && Records(s', id, y)
  {
    InstallOverwrites(s, id, p, q, x, y, n);
    Leads(Step(StartedAt(s, 1, id, q, y, n), Advance(0, Go(p, id))), id, p, q);
  }

  lemma OvertakenTasks(s: Daemon, id: TunnelId, p: nat, q: nat, x: string, y: string, n: nat)
    requires n == 12 && Startable(s, 1, id, q, y) && s.tasks == map[0 := Creator(id, CreateInstall(true), p, x)]
    ensures var s' := Step(StartedAt(s, 1, id, q, y, n), Advance(0, Go(p, id))); Settled(s', id) && Uncreated(s', id)
  {
    InstallOverwrites(s, id, p, q, x, y, n);
    var s' := Step(StartedAt(s, 1, id, q, y, n), Advance(0, Go(p, id)));
    assert s'.tasks.Keys == {0, 1} && s'.tasks[0] == Done(true) && s'.tasks[1] == Starter(s, id, q, y, n);
  }

  /** The tunnel is settled and created, and yet its proxy leads away from the
      installed inspector and its target file names another target. */
  lemma OvertakingHappens(proxies: map<TunnelId, string>, persisted: map<TunnelId, string>, id: TunnelId, p: nat, q: nat, x: string, y: string)
    requires Setting(proxies, id, p, q, x, y)
    ensures var s := Run(Fresh(proxies, persisted), OvertakenRun(id, p, q, x, y));
      && Settled(s, id) && Uncreated(s, id)
      && id in s.world.inspectors && s.world.inspectors[id] == Handle(p, x)
      && LeadsTo(s, id, q) && !LeadsTo(s, id, p) && Records(s, id, y)
  {
    var s1 := MidCreation(proxies, persisted, id, p, x);
    CreatingIsStartable(proxies, persisted, id, p, q, x, y);
    DuringCreate(proxies, persisted, id, p, q, x, y, 12, Advance(0, Go(p, id)));
    OvertakenWorld(s1, id, p, q, x, y, 12);
    OvertakenTasks(s1, id, p, q, x, y, 12);
  }

  /** Every call succeeds but the write of the target file, which leaves nothing. */
  function Refused(): Choice {
    Choice(false, false, 0, "", None)
  }

  /** The start's target write fails; its install goes ahead. */
  function UnsavedRun(id: TunnelId, p: nat, q: nat, x: string, y: string): seq<Event> {
    CreateEvents(0, id, p, x, 4) + StartEvents(1, id, q, y, 10) + [Advance(1, Refused())] + [Advance(1, Go(q, ""))]
  }

  lemma InstallsUnsaved(s: Daemon, id: TunnelId, q: nat, y: string, n: nat)
    requires n == 10 && Startable(s, 1, id, q, y)
    ensures var s' := Step(Step(StartedAt(s, 1, id, q, y, n), Advance(1, Refused())), Advance(1, Go(q, "")));
      && id in s'.world.inspectors && s'.world.inspectors[id] == Handle(q, y) && s'.world.persisted == s.world.persisted
      && id in s'.world.proxies && s'.world.proxies[id] == Normalize(InspectorEndpoint(q))
  {
    var d, t := StartedAt(s, 1, id, q, y, n), Starter(s, id, q, y, n);
    var m := StartRepoint(d, t, Refused());
    SetStep(s, d.mem, d.world, 1, t, Refused(), m);
    var d' := Set(s, m.mem, Perform(d.world, m.effect), 1, m.task);
    SetStep(s, d'.mem, d'.world, 1, m.task, Go(q, ""), StartRepoint(d', m.task, Go(q, "")));
  }

  /** The proxy leads to the installed inspector, whose target is not the one on
      file: a restart would bring back the old target. */
  lemma UnsavedHappens(proxies: map<TunnelId, string>, persisted: map<TunnelId, string>, id: TunnelId, p: nat, q: nat, x: string, y: string)
    requires Setting(proxies, id, p, q, x, y)
    ensures var s := Run(Fresh(proxies, persisted), UnsavedRun(id, p, q, x, y));
      && id in s.world.inspectors && s.world.inspectors[id] == Handle(q, y) && LeadsTo(s, id, q) && Records(s, id, x)
  {
    var s0, s1, e, f := Fresh(proxies, persisted), Created(proxies, persisted, id, p, x), Advance(1, Refused()), Advance(1, Go(q, ""));
    var events := CreateEvents(0, id, p, x, 4) + StartEvents(1, id, q, y, 10) + [e];
    CreatedIsStartable(proxies, persisted, id, p, q, x, y);
    AfterCreate(proxies, persisted, id, p, q, x, y, 10, e);
    RunConcat(s0, events, [f]);
    RunOne(Run(s0, events), f);
    InstallsUnsaved(s1, id, q, y, 10);
    Leads(Run(s0, events + [f]), id, p, q);
  }

  /** A start is dropped while it writes its target; another start goes through;
      then the first one's detached write lands. */
  function LateRun(id: TunnelId, p: nat, q: nat, r: nat, x: string, y: string, z: string): seq<Event> {
    CreateEvents(0, id, p, x, 4) + StartEvents(1, id, q, y, 10) + [Abandon(1, true)]
    + StartEvents(2, id, r, z, 12) + [Land(id, Some(y))]
  }

  /** The state once the write is detached. */
  function Detached(proxies: map<TunnelId, string>, persisted: map<TunnelId, string>, id: TunnelId, p: nat, q: nat, x: string, y: string, n: nat): Daemon
    requires n <= 12
  {
    Step(StartedAt(Created(proxies, persisted, id, p, x), 1, id, q, y, n), Abandon(1, true))
  }

  lemma DetachedIsStartable(proxies: map<TunnelId, string>, persisted: map<TunnelId, string>, id: TunnelId, p: nat, q: nat, r: nat,
                            x: string, y: string, z: string, n: nat)
    requires Setting(proxies, id, p, q, x, y) && n == 10 && r != p && TrimSlash(z) != TrimSlash(x)
    ensures Startable(Detached(proxies, persisted, id, p, q, x, y, n), 2, id, r, z)
    ensures id in Detached(proxies, persisted, id, p, q, x, y, n).world.past.adrift
  {
    var s, s' := Created(proxies, persisted, id, p, x), Detached(proxies, persisted, id, p, q, x, y, n);
    CreatedIsStartable(proxies, persisted, id, p, q, x, y);
    DroppedInWrite(s, id, q, y, n);
    CreatedAlone(proxies, persisted, id, p, x);
    OffIsStartable(s', 2, id, p, r, x, z);
  }

  lemma CreatedAlone(proxies: map<TunnelId, string>, persisted: map<TunnelId, string>, id: TunnelId, p: nat, x: string)
    ensures var s := Created(proxies, persisted, id, p, x);
      && s.world.inspectors == map[id := Handle(p, x)] && s.tasks.Keys == {0} && s.boot.Serving? && s.mem == Idle()
  {
  }

  lemma OffIsStartable(s: Daemon, tid: nat, id: TunnelId, p: nat, r: nat, x: string, z: string)
    requires s.boot.Serving? && AllDone(s) && tid !in s.tasks && id in s.world.proxies
    requires s.mem.running == map[] && s.mem.busy == {} && s.world.inspectors == map[id := Handle(p, x)] && Records(s, id, x)
    requires r != p && TrimSlash(z) != TrimSlash(x)
    ensures Startable(s, tid, id, r, z)
  {
  }

  /** Dropping a start during its target write gives everything back but the
      patch and the write. */
  lemma DroppedInWrite(s: Daemon, id: TunnelId, q: nat, y: string, n: nat)
    requires n == 10 && Startable(s, 1, id, q, y) && AllDone(s)
    ensures var s' := Step(StartedAt(s, 1, id, q, y, n), Abandon(1, true));
      && s'.boot == s.boot && AllDone(s') && s'.tasks.Keys == s.tasks.Keys + {1}
      && s'.mem.running == s.mem.running && s'.mem.busy == s.mem.busy
      && s'.world.inspectors == s.world.inspectors && s'.world.persisted == s.world.persisted
      && id in s'.world.proxies && id in s'.world.past.adrift
  {
    assert id !in s.mem.busy;
    assert s.mem.busy + {id} - {id} == s.mem.busy;
  }

  lemma LandsLate(s: Daemon, id: TunnelId, r: nat, y: string, z: string, n: nat)
    requires n == 12 && Startable(s, 2, id, r, z) && id in s.world.past.adrift
    ensures var s' := Step(StartedAt(s, 2, id, r, z, n), Land(id, Some(y)));
      && id in s'.world.inspectors && s'.world.inspectors[id] == Handle(r, z) && Records(s', id, y)
  {
  }

  /** The target file names a target no inspector forwards to, although the last
      start's write went through. */
  lemma LateWriteHappens(proxies: map<TunnelId, string>, persisted: map<TunnelId, string>, id: TunnelId, p: nat, q: nat, r: nat,
                         x: string, y: string, z: string)
    requires Setting(proxies, id, p, q, x, y) && r != p && TrimSlash(z) != TrimSlash(x)
    ensures var s := Run(Fresh(proxies, persisted), LateRun(id, p, q, r, x, y, z));
      && id in s.world.inspectors && s.world.inspectors[id] == Handle(r, z) && Records(s, id, y)
  {
    var s0 := Fresh(proxies, persisted);
    var a, b := CreateEvents(0, id, p, x, 4) + StartEvents(1, id, q, y, 10) + [Abandon(1, true)], StartEvents(2, id, r, z, 12);
    var s1 := Detached(proxies, persisted, id, p, q, x, y, 10);
    AfterCreate(proxies, persisted, id, p, q, x, y, 10, Abandon(1, true));
    DetachedIsStartable(proxies, persisted, id, p, q, r, x, y, z, 10);
    StartRuns(s1, 2, id, r, z, 12);
    RunThree(s0, a, b, Land(id, Some(y)), s1, StartedAt(s1, 2, id, r, z, 12));
    LandsLate(s1, id, r, y, z, 12);
  }
}
