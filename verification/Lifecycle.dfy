/**
  The daemon's tunnel lifecycle as a state machine.

  Every request handler is a task whose steps are split at its await points.
  A run is any sequence of events: tasks are spawned, advance one step at a
  time in any interleaving, are dropped at any await point, and the whole
  process may die and start again at any moment. Calls to the control plane
  and to the file system may fail; one that takes effect and still reports
  failure is the step that took effect followed by an `Abandon`. A file write
  begun by a dropped request goes on detached and lands at any later moment.

  The auto-expiry sweep calls the same stop as a client, with an id list that
  may be stale, so a sweep is a series of `SpawnStop` events on any ids.
 */
module Lifecycle {
  import opened Text

  type TunnelId = string

  /** A running inspector: the port it listens on, the target it forwards to. */
  datatype Handle = Handle(port: nat, target: string)

  datatype StartPc =
    | ReadInspectors | ReadTarget(has: bool) | CheckRunning | Claim
    | Fetch | Look | Spawn | Key | Patch | Patched | Save | Install(saved: bool)
    | EnableRead | EnableWrite | Insert | Audit

  datatype StopPc = StopClaim | Take | Disable | Deregister(disabled: bool) | StopAudit

  datatype DeletePc = Server | TakeRunning | Drain | DropInspector | DropTarget

  datatype CreatePc = CreateSpawn | CreateServer | CreateSave | CreateInstall(stored: bool)

  datatype Task =
    | Start(id: TunnelId, wanted: Option<string>, pc: StartPc, repoint: bool, live: bool,
            rewire: bool, handle: Option<Handle>, seen: string)
    | Stop(id: TunnelId, stop: StopPc, taken: Option<nat>)
    | Delete(id: TunnelId, del: DeletePc, taken: Option<nat>)
    | Create(id: TunnelId, create: CreatePc, target: string, handle: Option<Handle>)
    | Done(ok: bool)

  datatype Listed = Listed(id: TunnelId, endpoint: string, enabled: bool)

  datatype BootPc =
    | Load | Respawn(target: string) | Repoint(spare: Handle) | Resave(spare: Handle)
    | Reinstall(spare: Handle, stored: bool) | Resume

  /** The restart reconciliation pass, then normal service. */
  datatype Boot = Serving | Reconciling(todo: seq<Listed>, step: BootPc)

  /** `AppState`'s reservation set and running map. */
  datatype Memory = Memory(
    busy: set<TunnelId>,
    running: map<TunnelId, nat>,   // the live instance of each tunnel that is on
    next: nat,                     // instances made since this process started
    torn: multiset<nat>)           // instances whose teardown happened

  /** History, read by no step: ids whose proxy was last moved by a repoint that
      never installed its inspector (or was overtaken by a create), ids whose
      target file may not describe the installed inspector, and ids repointed
      while their create was still in flight. `adrift` counts the target writes
      of dropped requests that run detached and have yet to land; `smudged` are
      the ids where one landed after the last completed write. */
  datatype Past = Past(stranded: set<TunnelId>, unsaved: set<TunnelId>, raced: set<TunnelId>,
                       adrift: multiset<TunnelId>, smudged: set<TunnelId>)

  /** Inspectors, `daemon_inspector_targets/<id>.txt`, and the backend endpoint
      of each existing HTTPProxy. */
  datatype World = World(
    inspectors: map<TunnelId, Handle>,
    persisted: map<TunnelId, string>,
    proxies: map<TunnelId, string>,
    past: Past)

  datatype Daemon = Daemon(mem: Memory, world: World, tasks: map<nat, Task>, boot: Boot)

  /** The one thing a step does to the world. */
  datatype Effect =
    | Calm
    | Rewrote(id: TunnelId, endpoint: string)            // a patch that keeps the endpoint
    | Repointed(id: TunnelId, port: nat, raced: bool)    // a patch to a new inspector
    | Vanished(id: TunnelId)                             // the HTTPProxy is deleted
    | Made(id: TunnelId, port: nat)                      // a new HTTPProxy at an inspector
    | Saved(id: TunnelId, text: string)                  // the target file is written
    | Botched(id: TunnelId, left: Option<string>)        // a write fails, maybe leaving text
    | Seated(id: TunnelId, handle: Handle, saved: bool, stranded: bool)
    | Unseated(id: TunnelId)
    | Erased(id: TunnelId)
    | Forsaken(id: TunnelId, stranded: bool, writing: bool)
    | Landed(id: TunnelId, left: Option<string>)           // a detached write ends

  /** What the environment decides at one step. */
  datatype Choice = Choice(ok: bool, flag: bool, port: nat, name: TunnelId, text: Option<string>)

  datatype Event =
    | SpawnStart(tid: nat, id: TunnelId, wanted: Option<string>)
    | SpawnStop(tid: nat, id: TunnelId)
    | SpawnDelete(tid: nat, id: TunnelId)
    | SpawnCreate(tid: nat, target: string)
    | Advance(tid: nat, choice: Choice)
    | Abandon(tid: nat, writing: bool)
    | BootStep(choice: Choice)
    | Restart(order: seq<TunnelId>, enabled: set<TunnelId>)
    | Land(id: TunnelId, text: Option<string>)

  // ---- Reading tasks ----

  /** The task owns the `busy` reservation of its id. */
  predicate Holds(t: Task) {
    match t
    case Start(_, _, pc, _, _, _, _, _) =>
      !pc.ReadInspectors? && !pc.ReadTarget? && !pc.CheckRunning? && !pc.Claim?
    case Stop(_, pc, _) => !pc.StopClaim?
    case _ => false
  }

  function HandleOf(t: Task): Option<Handle> {
    if t.Start? || t.Create? then t.handle else None
  }

  function TakenOf(t: Task): Option<nat> {
    if t.Stop? || t.Delete? then t.taken else None
  }

  /** The proxy already points at the task's new inspector, which is not yet
      the tunnel's inspector. */
  predicate MidRepoint(t: Task) {
    t.Start? && t.handle.Some? && (t.pc.Patched? || t.pc.Save? || t.pc.Install?)
  }

  /** The task is inside `install_inspector`, or about to enter it. */
  predicate MidInstall(t: Task) {
    MidRepoint(t) || (t.Create? && (t.create.CreateSave? || t.create.CreateInstall?))
  }

  predicate Creating(s: Daemon, id: TunnelId) {
    exists tid | tid in s.tasks ::
      s.tasks[tid].Create? && s.tasks[tid].id == id && MidInstall(s.tasks[tid])
  }

  function BootHandle(b: Boot): Option<Handle> {
    if b.Reconciling? && (b.step.Repoint? || b.step.Resave? || b.step.Reinstall?)
    then Some(b.step.spare) else None
  }

  /** No live inspector listens on `port`. */
  predicate Free(s: Daemon, port: nat) {
    && (forall id | id in s.world.inspectors :: s.world.inspectors[id].port != port)
    && (forall tid | tid in s.tasks :: HandleOf(s.tasks[tid]).Some? ==> HandleOf(s.tasks[tid]).value.port != port)
    && (BootHandle(s.boot).Some? ==> BootHandle(s.boot).value.port != port)
  }

  /** A name the API server may generate: random, so one that no proxy has and
      that nothing in this daemon has heard of. */
  predicate Unused(s: Daemon, name: TunnelId) {
    && name !in s.world.proxies && name !in s.world.inspectors && name !in s.world.past.raced
    && (forall tid | tid in s.tasks && !s.tasks[tid].Done? :: s.tasks[tid].id != name)
  }

  predicate StartsDone(s: Daemon) {
    forall tid | tid in s.tasks :: !s.tasks[tid].Start?
  }

  /** `needs_repoint`: a trailing slash is not a different target. */
  predicate NeedsRepoint(has: bool, persisted: Option<string>, wanted: string) {
    !has || persisted.None? || TrimSlash(persisted.value) != TrimSlash(wanted)
  }

  /** The normalisation half of `parse_real_target`. */
  function RealTarget(raw: string): string {
    if "http://" <= raw || "https://" <= raw then raw else "http://" + raw
  }

  // ---- Effects ----

  function Put(m: map<TunnelId, string>, id: TunnelId, text: Option<string>): map<TunnelId, string> {
    if text.Some? then m[id := text.value] else m
  }

  function Toggle(s: set<TunnelId>, id: TunnelId, on: bool): set<TunnelId> {
    if on then s + {id} else s - {id}
  }

  function Perform(w: World, e: Effect): World {
    match e
    case Calm => w
    case Rewrote(id, endpoint) => w.(proxies := w.proxies[id := Normalize(endpoint)])
    case Repointed(id, port, raced) =>
      w.(proxies := w.proxies[id := Normalize(InspectorEndpoint(port))],
         past := w.past.(raced := Toggle(w.past.raced, id, raced)))
    case Vanished(id) => w.(proxies := w.proxies - {id})
    case Made(id, port) => w.(proxies := w.proxies[id := Normalize(InspectorEndpoint(port))])
    case Saved(id, text) =>
      w.(persisted := w.persisted[id := text], past := w.past.(smudged := w.past.smudged - {id}))
    case Botched(id, text) =>
      w.(persisted := Put(w.persisted, id, text), past := w.past.(unsaved := w.past.unsaved + {id}))
    case Seated(id, h, saved, stranded) =>
      w.(inspectors := w.inspectors[id := h],
         past := w.past.(stranded := Toggle(w.past.stranded, id, stranded),
                         unsaved := Toggle(w.past.unsaved, id, !saved || id in w.past.raced || id in w.past.smudged)))
    case Unseated(id) => w.(inspectors := w.inspectors - {id})
    case Erased(id) => w.(persisted := w.persisted - {id})
    case Forsaken(id, stranded, writing) =>
      w.(past := w.past.(stranded := if stranded then w.past.stranded + {id} else w.past.stranded,
                         unsaved := w.past.unsaved + {id},
                         adrift := if writing then w.past.adrift + multiset{id} else w.past.adrift))
    case Landed(id, left) =>
      w.(persisted := Put(w.persisted, id, left),
         past := w.past.(adrift := w.past.adrift - multiset{id},
                         unsaved := w.past.unsaved + {id}, smudged := w.past.smudged + {id}))
  }

  /** One step of one task: memory afterwards, the effect, the task afterwards. */
  datatype Move = Move(mem: Memory, effect: Effect, task: Task)

  function Stay(s: Daemon, t: Task): Move {
    Move(s.mem, Calm, t)
  }

  /** The task returns or is dropped at `t`: its guard releases the
      reservation, its inspector aborts, a taken instance is torn down. */
  function Exit(s: Daemon, t: Task, ok: bool): Move {
    Move(TearDown(Release(s.mem, t), TakenOf(t)),
         if MidInstall(t) then Forsaken(t.id, MidRepoint(t), false) else Calm,
         Done(ok))
  }

  /** `BusyGuard::drop`. */
  function Release(m: Memory, t: Task): Memory {
    if Holds(t) then m.(busy := m.busy - {t.id}) else m
  }

  function TearDown(m: Memory, taken: Option<nat>): Memory {
    if taken.Some? then m.(torn := m.torn + multiset{taken.value}) else m
  }

  /** `claim_busy`: an atomic test-and-set. */
  function Reserve(m: Memory, id: TunnelId): Memory {
    m.(busy := m.busy + {id})
  }

  /** `HashMap::remove` on `running`: at most one caller gets the instance. */
  function TakeOut(m: Memory, id: TunnelId): Memory {
    m.(running := m.running - {id})
  }

  function Instance(m: Memory, id: TunnelId): Option<nat> {
    if id in m.running then Some(m.running[id]) else None
  }

  /** `save_inspector_target`; a failed write may leave anything behind. */
  function SaveTarget(id: TunnelId, target: string, c: Choice): Effect {
    if c.ok then Saved(id, target) else Botched(id, c.text)
  }

  // ---- Steps ----

  /** `start_tunnel_internal` up to its claim: whether there is a target to
      repoint at, the early return when already on, the reservation. */
  function StartDecide(s: Daemon, t: Task, c: Choice): Move
    requires t.Start? && !Holds(t)
  {
    var id := t.id;
    match t.pc
    case ReadInspectors =>
      Stay(s, t.(pc := if t.wanted.None? then CheckRunning else ReadTarget(id in s.world.inspectors)))
    case ReadTarget(has) =>
      var p := if id in s.world.persisted then Some(s.world.persisted[id]) else None;
      Stay(s, t.(pc := CheckRunning, repoint := t.wanted.Some? && NeedsRepoint(has, p, t.wanted.value)))
    case CheckRunning =>
      if !t.repoint && id in s.mem.running then Exit(s, t, c.ok && id in s.world.proxies)
      else Stay(s, t.(pc := Claim))
    case Claim =>
      if id in s.mem.busy then Exit(s, t, false)
      else Move(Reserve(s.mem, id), Calm, t.(pc := Fetch))
  }

  /** From the claim to a node with its key: reads the tunnel, looks whether it
      runs already, spawns the new inspector. */
  function StartPrepare(s: Daemon, t: Task, c: Choice): Move
    requires t.Start? && (t.pc.Fetch? || t.pc.Look? || t.pc.Spawn? || t.pc.Key?)
  {
    var id := t.id;
    match t.pc
    case Fetch =>
      if !c.ok || id !in s.world.proxies then Exit(s, t, false)
      else Stay(s, t.(pc := Look, seen := Normalize(s.world.proxies[id])))
    case Look =>
      if id in s.mem.running && !t.repoint then Exit(s, t, true)
      else Stay(s, t.(pc := if t.repoint then Spawn else Key, live := id in s.mem.running))
    case Spawn =>
      if !c.ok then Exit(s, t, false)
      else if !Free(s, c.port) || t.wanted.None? then Stay(s, t)
      else Stay(s, t.(pc := if t.live then Patch else Key, handle := Some(Handle(c.port, t.wanted.value))))
    case Key =>
      if !c.ok then Exit(s, t, false)
      else Stay(s, t.(pc := Patch, rewire := c.flag))
  }

  /** `update_active` or `retarget_active`, then `install_inspector`. */
  function StartRepoint(s: Daemon, t: Task, c: Choice): Move
    requires t.Start? && (t.pc.Patch? || t.pc.Patched? || t.pc.Save? || t.pc.Install?)
  {
    var id := t.id;
    match t.pc
    case Patch =>
      if t.handle.None? && !t.rewire then Stay(s, t.(pc := EnableRead))
      else if id !in s.world.proxies || !c.ok then Exit(s, t, false)
      else
        Move(s.mem,
             if t.handle.Some? then Repointed(id, t.handle.value.port, Creating(s, id)) else Rewrote(id, t.seen),
             t.(pc := Patched))
    case Patched =>
      if !c.ok then Exit(s, t, false)
      else Stay(s, t.(pc := if t.handle.Some? then Save else EnableRead))
    case Save =>
      if t.handle.None? then Stay(s, t)
      else Move(s.mem, SaveTarget(id, t.handle.value.target, c), t.(pc := Install(c.ok)))
    case Install(saved) =>
      if t.handle.None? then Stay(s, t)
      else Move(s.mem, Seated(id, t.handle.value, saved, false),
                t.(pc := if t.live then Audit else EnableRead, handle := None))
  }

  /** `set_enabled_active`, the insert into `running`, the audit line. */
  function StartEnable(s: Daemon, t: Task, c: Choice): Move
    requires t.Start? && (t.pc.EnableRead? || t.pc.EnableWrite? || t.pc.Insert? || t.pc.Audit?)
  {
    var id := t.id;
    match t.pc
    case EnableRead =>
      if !c.ok || id !in s.world.proxies then Exit(s, t, false)
      else Stay(s, t.(pc := EnableWrite, seen := Normalize(s.world.proxies[id])))
    case EnableWrite =>
      if !c.ok || id !in s.world.proxies then Exit(s, t, false)
      else Move(s.mem, Rewrote(id, t.seen), t.(pc := Insert))
    case Insert =>
      Move(s.mem.(running := s.mem.running[id := s.mem.next], next := s.mem.next + 1), Calm, t.(pc := Audit))
    case Audit => Exit(s, t, c.ok)
  }

  function StepStart(s: Daemon, t: Task, c: Choice): Move
    requires t.Start?
  {
    match t.pc
    case Fetch | Look | Spawn | Key => StartPrepare(s, t, c)
    case Patch | Patched | Save | Install(_) => StartRepoint(s, t, c)
    case EnableRead | EnableWrite | Insert | Audit => StartEnable(s, t, c)
    case _ => StartDecide(s, t, c)
  }

  /** `stop_tunnel_internal`. */
  function StepStop(s: Daemon, t: Task, c: Choice): Move
    requires t.Stop?
  {
    match t.stop
    case StopClaim =>
      if t.id in s.mem.busy then Exit(s, t, false)
      else Move(Reserve(s.mem, t.id), Calm, t.(stop := Take))
    case Take => Move(TakeOut(s.mem, t.id), Calm, t.(stop := Disable, taken := Instance(s.mem, t.id)))
    case Disable => Stay(s, t.(stop := Deregister(c.ok)))
    case Deregister(disabled) =>
      if disabled then Move(TearDown(s.mem, t.taken), Calm, t.(stop := StopAudit, taken := None))
      else Exit(s, t, false)
    case StopAudit => Exit(s, t, true)
  }

  /** `delete_tunnel_internal`, which never claims `busy`. */
  function StepDelete(s: Daemon, t: Task, c: Choice): Move
    requires t.Delete?
  {
    match t.del
    case Server =>
      if c.ok then Move(s.mem, Vanished(t.id), t.(del := TakeRunning)) else Exit(s, t, false)
    case TakeRunning => Move(TakeOut(s.mem, t.id), Calm, t.(del := Drain, taken := Instance(s.mem, t.id)))
    case Drain => Move(TearDown(s.mem, t.taken), Calm, t.(del := DropInspector, taken := None))
    case DropInspector => Move(s.mem, Unseated(t.id), t.(del := DropTarget))
    case DropTarget => Move(s.mem, Erased(t.id), Done(true))
  }

  /** `create_tunnel`; the server picks the new proxy's name. */
  function StepCreate(s: Daemon, t: Task, c: Choice): Move
    requires t.Create?
  {
    match t.create
    case CreateSpawn =>
      if !c.ok then Exit(s, t, false)
      else if !Free(s, c.port) then Stay(s, t)
      else Stay(s, t.(create := CreateServer, handle := Some(Handle(c.port, t.target))))
    case CreateServer =>
      if t.handle.None? || !Unused(s, c.name) then Stay(s, t)
      else if !c.ok then Exit(s, t, false)
      else Move(s.mem, Made(c.name, t.handle.value.port), t.(create := CreateSave, id := c.name))
    case CreateSave =>
      if t.handle.None? then Stay(s, t)
      else Move(s.mem, SaveTarget(t.id, t.handle.value.target, c), t.(create := CreateInstall(c.ok)))
    case CreateInstall(stored) =>
      if t.handle.None? then Stay(s, t)
      else Move(s.mem, Seated(t.id, t.handle.value, stored, t.id in s.world.past.raced), Done(true))
  }

  /** Move on to the next listed tunnel. */
  function Next(b: Boot): Boot
    requires b.Reconciling? && b.todo != []
  {
    Reconciling(b.todo[1..], Load)
  }

  function At(b: Boot, step: BootPc): Boot
    requires b.Reconciling?
  {
    b.(step := step)
  }

  /** One step of the reconciliation pass in `run`: its effect and where it
      stands afterwards. A patch may report failure after taking effect. */
  function StepBoot(s: Daemon, c: Choice): (Effect, Boot)
    requires s.boot.Reconciling?
  {
    var b := s.boot;
    if b.todo == [] then (Calm, if StartsDone(s) then Serving else b)
    else
      var Listed(id, endpoint, enabled) := b.todo[0];
      match b.step
      case Load =>
        if !StartsDone(s) then (Calm, b)
        else if id !in s.world.persisted || !c.ok then (Calm, Next(b))
        else (Calm, At(b, Respawn(RealTarget(s.world.persisted[id]))))
      case Respawn(target) =>
        if !c.ok then (Calm, Next(b))
        else if !Free(s, c.port) then (Calm, b)
        else (Calm, At(b, Repoint(Handle(c.port, target))))
      case Repoint(h) =>
        if InspectorEndpoint(h.port) == TrimSlash(endpoint) then (Calm, At(b, Resave(h)))
        else if id !in s.world.proxies || (!c.ok && !c.flag) then (Calm, Next(b))
        else (Repointed(id, h.port, false), if c.ok then At(b, Resave(h)) else Next(b))
      case Resave(h) => (SaveTarget(id, h.target, c), At(b, Reinstall(h, c.ok)))
      case Reinstall(h, stored) => (Seated(id, h, stored, false), At(b, Resume))
      case Resume => (Calm, if enabled && c.port in s.tasks then b else Next(b))
  }

  /** `was_enabled`: the pass resumes the tunnel with a plain start. */
  predicate Resumes(s: Daemon, c: Choice) {
    s.boot.Reconciling? && s.boot.todo != [] && s.boot.step.Resume? && s.boot.todo[0].enabled && c.port !in s.tasks
  }

  function BootTasks(s: Daemon, c: Choice): map<nat, Task> {
    if Resumes(s, c) then s.tasks[c.port := NewStart(s.boot.todo[0].id, None)] else s.tasks
  }

  function NewStart(id: TunnelId, wanted: Option<string>): Task {
    Start(id, wanted, ReadInspectors, false, false, false, None, "")
  }

  /** The process dies; the next one lists the tunnels and starts reconciling.
      `enabled` are the tunnels listed as on. Nothing in memory survives. */
  function Reboot(s: Daemon, order: seq<TunnelId>, enabled: set<TunnelId>): Daemon {
    if !NoDup(order) || exists i | 0 <= i < |order| :: order[i] !in s.world.proxies then s
    else
      var listed := seq(|order|, i requires 0 <= i < |order| =>
        Listed(order[i], if order[i] in s.world.proxies then Normalize(s.world.proxies[order[i]]) else "", order[i] in enabled));
      Daemon(Idle(), s.world.(inspectors := map[], past := Past({}, {}, {}, multiset{}, {})), map[], Reconciling(listed, Load))
  }

  function Idle(): Memory {
    Memory({}, map[], 0, multiset{})
  }

  function StepTask(s: Daemon, t: Task, c: Choice): Move {
    match t
    case Start(_, _, _, _, _, _, _, _) => StepStart(s, t, c)
    case Stop(_, _, _) => StepStop(s, t, c)
    case Delete(_, _, _) => StepDelete(s, t, c)
    case Create(_, _, _, _) => StepCreate(s, t, c)
    case Done(_) => Stay(s, t)
  }

  /** Dropping a task's future; a file write it had begun goes on detached. */
  function DropTask(s: Daemon, t: Task, writing: bool): Move {
    if t.Done? then Stay(s, t)
    else
      var saving := writing && HandleOf(t).Some? && ((t.Start? && t.pc.Save?) || (t.Create? && t.create.CreateSave?));
      var m := Exit(s, t, false);
      if saving then m.(effect := Forsaken(t.id, MidRepoint(t), true)) else m
  }

  function Apply(s: Daemon, tid: nat, m: Move): Daemon {
    Daemon(m.mem, Perform(s.world, m.effect), s.tasks[tid := m.task], s.boot)
  }

  function Add(s: Daemon, tid: nat, t: Task): Daemon {
    s.(tasks := s.tasks[tid := t])
  }

  function ApplyBoot(s: Daemon, c: Choice): Daemon
    requires s.boot.Reconciling?
  {
    var (effect, boot) := StepBoot(s, c);
    Daemon(s.mem, Perform(s.world, effect), BootTasks(s, c), boot)
  }

  function Step(s: Daemon, e: Event): Daemon {
    match e
    case SpawnStart(tid, id, wanted) =>
      if tid in s.tasks || !s.boot.Serving? then s else Add(s, tid, NewStart(id, wanted))
    case SpawnStop(tid, id) =>
      if tid in s.tasks then s else Add(s, tid, Stop(id, StopClaim, None))
    case SpawnDelete(tid, id) =>
      if tid in s.tasks then s else Add(s, tid, Delete(id, Server, None))
    case SpawnCreate(tid, target) =>
      if tid in s.tasks || !s.boot.Serving? then s else Add(s, tid, Create("", CreateSpawn, target, None))
    case Advance(tid, c) => if tid in s.tasks then Apply(s, tid, StepTask(s, s.tasks[tid], c)) else s
    case Abandon(tid, writing) => if tid in s.tasks then Apply(s, tid, DropTask(s, s.tasks[tid], writing)) else s
    case BootStep(c) => if s.boot.Reconciling? then ApplyBoot(s, c) else s
    case Restart(order, enabled) => Reboot(s, order, enabled)
    case Land(id, text) =>
      if id in s.world.past.adrift then s.(world := Perform(s.world, Landed(id, text))) else s
  }

  function Run(s: Daemon, events: seq<Event>): Daemon {
    if events == [] then s else Step(Run(s, events[..|events| - 1]), events[|events| - 1])
  }

  /** A machine whose daemon has never run: whatever proxies exist, and
      whatever target files an earlier installation left. */
  function Fresh(proxies: map<TunnelId, string>, persisted: map<TunnelId, string>): Daemon {
    Daemon(Idle(), World(map[], persisted, proxies, Past({}, {}, {}, multiset{}, {})), map[], Serving)
  }
}
