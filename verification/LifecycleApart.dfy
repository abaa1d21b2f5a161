/**
  One tunnel among many: events that concern other tunnels leave this one's
  entry, reservation, inspector, file and proxy alone.
 */
module LifecycleApart {
  import opened Text
  import opened Lifecycle
  import opened LifecycleSafety
  import opened LifecycleEndpoints

  /** Everything the state says about one tunnel. */
  datatype Tunnel = Tunnel(
    running: Option<nat>, inspector: Option<Handle>, file: Option<string>, proxy: Option<string>,
    unsaved: bool, stranded: bool)

  function Lookup<T>(m: map<TunnelId, T>, id: TunnelId): Option<T> {
    if id in m then Some(m[id]) else None
  }

  function TunnelOf(s: Daemon, id: TunnelId): Tunnel {
    Tunnel(Lookup(s.mem.running, id), Lookup(s.world.inspectors, id), Lookup(s.world.persisted, id),
           Lookup(s.world.proxies, id), id in s.world.past.unsaved, id in s.world.past.stranded)
  }

  predicate Elsewhere(t: Task, id: TunnelId) {
    t.Done? || t.id != id
  }

  /** The event concerns other tunnels: a step or a drop of a task on another
      id, a new task, a step of the reconciliation pass on another tunnel,
      another tunnel's detached write. */
  predicate Aside(s: Daemon, e: Event, id: TunnelId) {
    match e
    case Advance(u, _) => u in s.tasks ==> Elsewhere(s.tasks[u], id)
    case Abandon(u, _) => u in s.tasks ==> Elsewhere(s.tasks[u], id)
    case BootStep(_) => s.boot.Reconciling? && s.boot.todo != [] ==> s.boot.todo[0].id != id
    case Restart(_, _) => false
    case Land(i, _) => i != id
    case _ => true
  }

  predicate Own(e: Event, tid: nat) {
    e.Advance? && e.tid == tid
  }

  /** A step of task `tid`, or an event aside that does not drop it. */
  predicate Apart(s: Daemon, e: Event, tid: nat, id: TunnelId) {
    Own(e, tid) || (Aside(s, e, id) && !(e.Abandon? && e.tid == tid))
  }

  predicate ApartRun(s: Daemon, events: seq<Event>, tid: nat, id: TunnelId) {
    events == [] ||
    (ApartRun(s, events[..|events| - 1], tid, id) && Apart(Run(s, events[..|events| - 1]), events[|events| - 1], tid, id))
  }

  /** How many steps `tid` has made. */
  function OwnSteps(events: seq<Event>, tid: nat): nat {
    if events == [] then 0
    else OwnSteps(events[..|events| - 1], tid) + if events[|events| - 1].Advance? && events[|events| - 1].tid == tid then 1 else 0
  }

  /** Every call made by task `tid` succeeds. */
  predicate AllOk(events: seq<Event>, tid: nat) {
    forall i | 0 <= i < |events| :: Own(events[i], tid) ==> events[i].choice.ok
  }

  lemma AllOkOneMore(events: seq<Event>, tid: nat)
    requires events != []
    ensures var init, e := events[..|events| - 1], events[|events| - 1];
      AllOk(events, tid) <==> AllOk(init, tid) && (Own(e, tid) ==> e.choice.ok)
  {
    var init := events[..|events| - 1];
    assert forall i | 0 <= i < |init| :: init[i] == events[i];
  }

  lemma PerformElsewhere(s: Daemon, s': Daemon, e: Effect, id: TunnelId)
    requires s'.world == Perform(s.world, e) && (e.Calm? || e.id != id)
    requires Lookup(s'.mem.running, id) == Lookup(s.mem.running, id)
    ensures TunnelOf(s', id) == TunnelOf(s, id)
  {
  }

  /** A move of a task on another tunnel. */
  lemma MoveElsewhere(s: Daemon, u: nat, m: Move, id: TunnelId)
    requires u in s.tasks && !s.tasks[u].Done? && s.tasks[u].id != id && !Unused(s, id)
    requires Shape(s.tasks[u]) && Fits(s, s.tasks[u], m) && Delta(s, s.tasks[u], m)
    ensures TunnelOf(Apply(s, u, m), id) == TunnelOf(s, id)
  {
    PerformElsewhere(s, Apply(s, u, m), m.effect, id);
  }

  /** Nothing aside touches the tunnel. */
  lemma AsideKeeps(s: Daemon, e: Event, id: TunnelId)
    requires Safe(s) && !Unused(s, id) && Aside(s, e, id)
    ensures TunnelOf(Step(s, e), id) == TunnelOf(s, id)
  {
    match e
    case Advance(u, c) =>
      if u in s.tasks && !s.tasks[u].Done? {
        StepFits(s, s.tasks[u], c);
        StepDelta(s, s.tasks[u], c);
        MoveElsewhere(s, u, StepTask(s, s.tasks[u], c), id);
      }
    case Abandon(u, writing) =>
      if u in s.tasks && !s.tasks[u].Done? {
        DropFits(s, s.tasks[u], writing);
        DropDelta(s, s.tasks[u], writing);
        MoveElsewhere(s, u, DropTask(s, s.tasks[u], writing), id);
      }
    case BootStep(c) =>
      if s.boot.Reconciling? {
        StepBootFits(s, c);
        PerformElsewhere(s, Step(s, e), StepBoot(s, c).0, id);
      }
    case _ =>
  }

  /** The memory of one tunnel after a move elsewhere; teardowns only add up. */
  lemma MoveMemory(s: Daemon, u: nat, m: Move, id: TunnelId, n: nat)
    requires u in s.tasks && !s.tasks[u].Done? && s.tasks[u].id != id
    requires Shape(s.tasks[u]) && Fits(s, s.tasks[u], m) && Delta(s, s.tasks[u], m)
    ensures Lookup(m.mem.running, id) == Lookup(s.mem.running, id)
    ensures id in m.mem.busy <==> id in s.mem.busy
    ensures m.mem.torn[n] >= s.mem.torn[n]
  {
  }

  lemma AsideMemory(s: Daemon, e: Event, id: TunnelId, n: nat)
    requires Safe(s) && Aside(s, e, id)
    ensures var m := Step(s, e).mem;
      Lookup(m.running, id) == Lookup(s.mem.running, id) && (id in m.busy <==> id in s.mem.busy) && m.torn[n] >= s.mem.torn[n]
  {
    match e
    case Advance(u, c) =>
      if u in s.tasks && !s.tasks[u].Done? {
        StepFits(s, s.tasks[u], c);
        StepDelta(s, s.tasks[u], c);
        MoveMemory(s, u, StepTask(s, s.tasks[u], c), id, n);
      }
    case Abandon(u, writing) =>
      if u in s.tasks && !s.tasks[u].Done? {
        DropFits(s, s.tasks[u], writing);
        DropDelta(s, s.tasks[u], writing);
        MoveMemory(s, u, DropTask(s, s.tasks[u], writing), id, n);
      }
    case _ =>
  }

  lemma ApartTask(s: Daemon, e: Event, tid: nat, id: TunnelId)
    requires tid in s.tasks && Apart(s, e, tid, id) && !Own(e, tid)
    ensures tid in Step(s, e).tasks && Step(s, e).tasks[tid] == s.tasks[tid]
  {
  }

  /** Nothing that happens apart touches the tunnel or its task. */
  lemma ApartKeeps(s: Daemon, e: Event, tid: nat, id: TunnelId)
    requires Safe(s) && tid in s.tasks && !Unused(s, id) && Apart(s, e, tid, id) && !Own(e, tid)
    ensures TunnelOf(Step(s, e), id) == TunnelOf(s, id)
    ensures tid in Step(s, e).tasks && Step(s, e).tasks[tid] == s.tasks[tid]
  {
    AsideKeeps(s, e, id);
    ApartTask(s, e, tid, id);
  }
}
