/**
  Where a tunnel's proxy points, over every interleaving: a tunnel with an
  installed inspector and an existing HTTPProxy has its proxy at that
  inspector, and its target file names what that inspector forwards to,
  exactly when no repoint was cut off between its proxy patch and its install.
 */
module LifecycleEndpoints {
  import opened Text
  import opened Lifecycle
  import opened LifecycleSafety

  /** The proxy of `id` exists and leads to port `port`. */
  predicate LeadsTo(s: Daemon, id: TunnelId, port: nat) {
    id in s.world.proxies && Canon(s.world.proxies[id]) == InspectorEndpoint(port)
  }

  predicate Records(s: Daemon, id: TunnelId, target: string) {
    id in s.world.persisted && s.world.persisted[id] == target
  }

  predicate Exists(s: Daemon, id: TunnelId) {
    id in s.world.proxies
  }

  /** A start that will write back the endpoint it read. */
  predicate Looking(t: Task) {
    t.Start? && (t.pc.Look? || t.pc.Spawn? || t.pc.Key? || t.pc.Patch? || t.pc.EnableWrite?)
  }

  predicate MidCreate(t: Task) {
    t.Create? && (t.create.CreateSave? || t.create.CreateInstall?)
  }

  /** The task is about to seat an inspector whose target it wrote to disk. */
  predicate WroteTarget(t: Task) {
    (MidRepoint(t) && t.pc == Install(true)) || (MidCreate(t) && t.create == CreateInstall(true))
  }

  /** What a task relies on about its own tunnel. */
  predicate TaskOk(s: Daemon, t: Task) {
    Shape(t) && !t.Done? && Exists(s, t.id) ==>
      && (Looking(t) ==> Canon(s.world.proxies[t.id]) == Canon(t.seen))
      && (MidRepoint(t) ==> LeadsTo(s, t.id, t.handle.value.port))
      && (MidCreate(t) ==> (LeadsTo(s, t.id, t.handle.value.port) <==> t.id !in s.world.past.raced))
      && (WroteTarget(t) && t.id !in s.world.past.raced && t.id !in s.world.past.smudged ==> Records(s, t.id, t.handle.value.target))
      && (t.Delete? ==> t.del.Server?)
  }

  ghost predicate Repointing(s: Daemon, id: TunnelId, tid: nat) {
    tid in s.tasks && MidRepoint(s.tasks[tid]) && s.tasks[tid].id == id
  }

  ghost predicate BeingMade(s: Daemon, id: TunnelId, tid: nat) {
    tid in s.tasks && MidCreate(s.tasks[tid]) && s.tasks[tid].id == id
  }

  /** No task is between its proxy patch and its install for `id`. */
  ghost predicate Settled(s: Daemon, id: TunnelId) {
    forall tid :: !Repointing(s, id, tid)
  }

  ghost predicate Uncreated(s: Daemon, id: TunnelId) {
    forall tid :: !BeingMade(s, id, tid)
  }

  /** The main property of one tunnel. */
  ghost predicate IdOk(s: Daemon, id: TunnelId) {
    id in s.world.inspectors && Exists(s, id) && Settled(s, id) ==>
      && (LeadsTo(s, id, s.world.inspectors[id].port) <==> id !in s.world.past.stranded)
      && (Uncreated(s, id) && id !in s.world.past.unsaved ==> Records(s, id, s.world.inspectors[id].target))
  }

  // ---- Ports ----

  datatype Owner = Installed(id: TunnelId) | Carried(tid: nat) | Booting

  function PortOf(s: Daemon, o: Owner): Option<nat> {
    match o
    case Installed(id) => if id in s.world.inspectors then Some(s.world.inspectors[id].port) else None
    case Carried(tid) =>
      if tid in s.tasks && HandleOf(s.tasks[tid]).Some? then Some(HandleOf(s.tasks[tid]).value.port) else None
    case Booting => if BootHandle(s.boot).Some? then Some(BootHandle(s.boot).value.port) else None
  }

  ghost predicate PortsDistinct(s: Daemon) {
    forall o, p | o != p && PortOf(s, o).Some? :: PortOf(s, o) != PortOf(s, p)
  }

  lemma FreePort(s: Daemon, port: nat, o: Owner)
    requires Free(s, port)
    ensures PortOf(s, o) != Some(port)
  {
  }

  // ---- Creates and reconciliation ----

  /** One create per new tunnel, and a repoint during it is on record. */
  ghost predicate CreatesOk(s: Daemon) {
    && (forall id, u, v | BeingMade(s, id, u) && BeingMade(s, id, v) :: u == v)
    && (forall id, u, v | BeingMade(s, id, u) && Repointing(s, id, v) :: id in s.world.past.raced)
  }

  /** The `i`-th listed tunnel is as it was when it was listed. */
  predicate ListedOk(s: Daemon, i: nat)
    requires s.boot.Reconciling? && i < |s.boot.todo|
  {
    var l, step := s.boot.todo[i], s.boot.step;
    && (i > 0 || !step.Resume? ==> l.id !in s.world.inspectors)
    && (i > 0 || step.Load? || step.Respawn? || step.Repoint? ==>
          Exists(s, l.id) ==> Normalize(s.world.proxies[l.id]) == l.endpoint)
    && (i == 0 && (step.Resave? || step.Reinstall?) && Exists(s, l.id) ==> LeadsTo(s, l.id, step.spare.port))
    && (i == 0 && step.Reinstall? && step.stored && Exists(s, l.id) && l.id !in s.world.past.smudged ==> Records(s, l.id, step.spare.target))
  }

  ghost predicate BootOk(s: Daemon) {
    s.boot.Reconciling? ==>
      && s.world.past.raced == {}
      && (forall tid | tid in s.tasks :: !s.tasks[tid].Create?)
      && (forall i, j | 0 <= i < j < |s.boot.todo| :: s.boot.todo[i].id != s.boot.todo[j].id)
      && (forall i | 0 <= i < |s.boot.todo| :: ListedOk(s, i))
      && (forall i, tid | 0 <= i < |s.boot.todo| && tid in s.tasks && s.tasks[tid].Start? ::
            s.tasks[tid].id != s.boot.todo[i].id)
  }

  ghost predicate Pointed(s: Daemon) {
    && PortsDistinct(s) && CreatesOk(s) && BootOk(s)
    && (forall tid | tid in s.tasks :: TaskOk(s, s.tasks[tid]))
    && (forall id :: IdOk(s, id))
  }

  // ---- What one step of one task may do to the world ----

  /** Between steps that do not touch the world, a task only learns. */
  predicate CalmFits(s: Daemon, t: Task, t': Task)
    requires !t.Done?
  {
    && (t'.Done? || t'.id == t.id)
    && (MidRepoint(t) <==> MidRepoint(t')) && (MidCreate(t) <==> MidCreate(t'))
    && (WroteTarget(t') <==> WroteTarget(t))
    && (Looking(t') ==> (Looking(t) && t'.seen == t.seen)
                        || (Exists(s, t.id) && t'.seen == Normalize(s.world.proxies[t.id])))
    && (t'.Delete? && !t'.del.Server? ==> t.Delete? && !t.del.Server?)
    && (t'.Create? ==> t.Create?)
    && (t'.Start? ==> t.Start?)
    && (HandleOf(t').Some? ==>
          HandleOf(t') == HandleOf(t) || (HandleOf(t).None? && Free(s, HandleOf(t').value.port)))
  }

  predicate Fits(s: Daemon, t: Task, m: Move)
    requires !t.Done? && Shape(t)
  {
    var t' := m.task;
    match m.effect
    case Calm => CalmFits(s, t, t')
    case Rewrote(id, endpoint) =>
      && Looking(t) && id == t.id && endpoint == t.seen && Exists(s, id)
      && t'.Start? && t'.id == id && t.handle.None? && t'.handle.None? && !Looking(t')
    case Repointed(id, port, raced) =>
      && Looking(t) && t.handle.Some? && id == t.id && Exists(s, id) && port == t.handle.value.port
      && raced == Creating(s, id)
      && t'.Start? && t'.id == id && t'.pc.Patched? && t'.handle == t.handle
    case Vanished(id) => t.Delete? && t'.Delete? && id == t.id && t'.id == id && t'.taken == t.taken
    case Made(id, port) =>
      && t.Create? && t.create.CreateServer? && port == t.handle.value.port && Unused(s, id)
      && t'.Create? && t'.create.CreateSave? && t'.id == id && t'.handle == t.handle
    case Saved(id, text) =>
      && MidInstall(t) && !WroteTarget(t) && id == t.id && text == t.handle.value.target
      && (MidRepoint(t) <==> MidRepoint(t')) && (MidCreate(t) <==> MidCreate(t'))
      && WroteTarget(t') && t'.id == id && HandleOf(t') == HandleOf(t) && !Looking(t')
    case Botched(id, _) =>
      && MidInstall(t) && id == t.id
      && (MidRepoint(t) <==> MidRepoint(t')) && (MidCreate(t) <==> MidCreate(t'))
      && (t'.Start? || t'.Create?) && !WroteTarget(t') && t'.id == id && HandleOf(t') == HandleOf(t) && !Looking(t')
    case Seated(id, h, saved, stranded) =>
      && MidInstall(t) && id == t.id && h == t.handle.value && (saved ==> WroteTarget(t))
      && stranded == (MidCreate(t) && id in s.world.past.raced)
      && HandleOf(t').None? && !MidInstall(t') && !Looking(t')
      && (t'.Done? || (t.Start? && t'.Start? && t'.id == id))
    case Unseated(id) => t.Delete? && !t.del.Server? && id == t.id && t'.Delete? && t'.id == id
    case Erased(id) => t.Delete? && !t.del.Server? && id == t.id && t'.Done?
    case Landed(_, _) => false
    case Forsaken(id, stranded, _) => MidInstall(t) && id == t.id && stranded == MidRepoint(t) && t'.Done?
  }

  lemma PrepareFits(s: Daemon, t: Task, c: Choice)
    requires t.Start? && Shape(t) && (!Holds(t) || t.pc.Fetch? || t.pc.Look? || t.pc.Spawn? || t.pc.Key?)
    ensures Fits(s, t, StepStart(s, t, c))
  {
    if Holds(t) {
      assert Fits(s, t, StartPrepare(s, t, c));
    } else {
      assert Fits(s, t, StartDecide(s, t, c));
    }
  }

  lemma RepointFits(s: Daemon, t: Task, c: Choice)
    requires t.Start? && Shape(t) && (t.pc.Patch? || t.pc.Patched? || t.pc.Save? || t.pc.Install?)
    ensures Fits(s, t, StartRepoint(s, t, c))
  {
    match t.pc
    case Patch =>
    case Patched =>
    case Save =>
    case Install(_) =>
  }

  lemma StartFits(s: Daemon, t: Task, c: Choice)
    requires t.Start? && Shape(t)
    ensures Fits(s, t, StepStart(s, t, c))
  {
    match t.pc
    case Patch | Patched | Save | Install(_) => RepointFits(s, t, c);
    case EnableRead | EnableWrite | Insert | Audit => assert Fits(s, t, StartEnable(s, t, c));
    case _ => PrepareFits(s, t, c);
  }

  lemma StopFits(s: Daemon, t: Task, c: Choice)
    requires t.Stop? && Shape(t)
    ensures Fits(s, t, StepStop(s, t, c))
  {
  }

  lemma DeleteFits(s: Daemon, t: Task, c: Choice)
    requires t.Delete? && Shape(t)
    ensures Fits(s, t, StepDelete(s, t, c))
  {
  }

  lemma CreateFits(s: Daemon, t: Task, c: Choice)
    requires t.Create? && Shape(t)
    ensures Fits(s, t, StepCreate(s, t, c))
  {
  }

  lemma StepFits(s: Daemon, t: Task, c: Choice)
    requires !t.Done? && Shape(t)
    ensures Fits(s, t, StepTask(s, t, c))
  {
    match t
    case Start(_, _, _, _, _, _, _, _) => StartFits(s, t, c);
    case Stop(_, _, _) => StopFits(s, t, c);
    case Delete(_, _, _) => DeleteFits(s, t, c);
    case Create(_, _, _, _) => CreateFits(s, t, c);
  }

  lemma DropFits(s: Daemon, t: Task, writing: bool)
    requires !t.Done? && Shape(t)
    ensures Fits(s, t, DropTask(s, t, writing))
  {
  }

  // ---- Ports stay distinct ----

  /** An install hands the port from the task to the tunnel. */
  lemma SeatedKeepsPorts(s: Daemon, tid: nat, m: Move)
    requires Shaped(s) && PortsDistinct(s) && m.effect.Seated?
    requires tid in s.tasks && !s.tasks[tid].Done? && Fits(s, s.tasks[tid], m)
    ensures PortsDistinct(Apply(s, tid, m))
  {
    var s', x, y := Apply(s, tid, m), Carried(tid), Installed(m.effect.id);
    assert PortOf(s, x) == Some(m.effect.handle.port) == PortOf(s', y);
    assert PortOf(s', x).None?;
    assert forall q | q != x && q != y :: PortOf(s', q) == PortOf(s, q);
  }

  /** Any other step keeps, drops, or takes a free port. */
  lemma OtherEffectKeepsPorts(s: Daemon, tid: nat, m: Move)
    requires Shaped(s) && PortsDistinct(s) && !m.effect.Seated?
    requires tid in s.tasks && !s.tasks[tid].Done? && Fits(s, s.tasks[tid], m)
    ensures PortsDistinct(Apply(s, tid, m))
  {
    var s', t := Apply(s, tid, m), s.tasks[tid];
    assert forall q | q != Carried(tid) :: PortOf(s', q) == PortOf(s, q) || PortOf(s', q).None?;
    if HandleOf(m.task).Some? && HandleOf(m.task) != HandleOf(t) {
      forall q ensures PortOf(s, q) != PortOf(s', Carried(tid)) { FreePort(s, HandleOf(m.task).value.port, q); }
    } else {
      assert PortOf(s', Carried(tid)) == PortOf(s, Carried(tid)) || PortOf(s', Carried(tid)).None?;
    }
  }

  lemma ApplyKeepsPorts(s: Daemon, tid: nat, m: Move)
    requires Shaped(s) && PortsDistinct(s)
    requires tid in s.tasks && !s.tasks[tid].Done? && Fits(s, s.tasks[tid], m)
    ensures PortsDistinct(Apply(s, tid, m))
  {
    if m.effect.Seated? {
      SeatedKeepsPorts(s, tid, m);
    } else {
      OtherEffectKeepsPorts(s, tid, m);
    }
  }

  // ---- Creates ----

  lemma ApplyKeepsCreates(s: Daemon, tid: nat, m: Move)
    requires Shaped(s) && CreatesOk(s)
    requires tid in s.tasks && !s.tasks[tid].Done? && Fits(s, s.tasks[tid], m)
    ensures CreatesOk(Apply(s, tid, m))
  {
    var s', t := Apply(s, tid, m), s.tasks[tid];
    assert forall id, u | u != tid :: BeingMade(s', id, u) <==> BeingMade(s, id, u);
    assert forall id, u | u != tid :: Repointing(s', id, u) <==> Repointing(s, id, u);
    if m.effect.Made? {
      assert forall u :: !BeingMade(s, m.effect.id, u) && !Repointing(s, m.effect.id, u);
    } else {
      assert forall id :: BeingMade(s', id, tid) ==> BeingMade(s, id, tid);
      if m.effect.Repointed? {
        assert forall u :: BeingMade(s, t.id, u) ==> Creating(s, t.id);
      } else {
        assert forall id :: Repointing(s', id, tid) ==> Repointing(s, id, tid);
      }
    }
  }

  // ---- What tasks rely on ----

  /** Facts about a tunnel the effect does not concern. */
  lemma TaskElsewhere(s: Daemon, s': Daemon, t: Task, e: Effect)
    requires s'.world == Perform(s.world, e) && TaskOk(s, t)
    requires t.Done? || e.Calm? || e.id != t.id
    ensures TaskOk(s', t)
  {
  }

  lemma MoverKeepsOwn(s: Daemon, tid: nat, m: Move)
    requires Shaped(s) && tid in s.tasks && !s.tasks[tid].Done? && TaskOk(s, s.tasks[tid])
    requires Fits(s, s.tasks[tid], m) && Shape(m.task)
    ensures TaskOk(Apply(s, tid, m), m.task)
  {
    var t := s.tasks[tid];
    if Exists(s, t.id) {
      NormalizeIdempotent(s.world.proxies[t.id]);
    }
    if t.Start? {
      NormalizeIdempotent(t.seen);
    }
    if HandleOf(t).Some? {
      InspectorCanon(HandleOf(t).value.port);
      NormalizeIdempotent(InspectorEndpoint(HandleOf(t).value.port));
    }
  }

  /** A repoint overtakes a create: their ports differ, so the proxy no longer
      leads to the create's inspector. */
  lemma RepointedKeepsOther(s: Daemon, tid: nat, m: Move, u: nat)
    requires Safe(s) && PortsDistinct(s) && CreatesOk(s)
    requires tid in s.tasks && !s.tasks[tid].Done? && Fits(s, s.tasks[tid], m) && m.effect.Repointed?
    requires u in s.tasks && u != tid && TaskOk(s, s.tasks[u]) && !s.tasks[u].Done? && s.tasks[u].id == m.effect.id
    ensures TaskOk(Apply(s, tid, m), s.tasks[u])
  {
    var v, id, port := s.tasks[u], m.effect.id, m.effect.port;
    assert Holder(s, tid, id);
    assert Holds(v) ==> Holder(s, u, id);
    InspectorCanon(port);
    NormalizeIdempotent(InspectorEndpoint(port));
    if MidCreate(v) {
      assert BeingMade(s, id, u) && Creating(s, id);
      assert PortOf(s, Carried(tid)) == Some(port) != PortOf(s, Carried(u));
      if InspectorEndpoint(v.handle.value.port) == InspectorEndpoint(port) {
        InspectorInjective(v.handle.value.port, port);
      }
    }
  }

  /** Another task on the same tunnel: never a second start past its claim, so
      only a create being overtaken, or a delete that already went through. */
  lemma OthersKeep(s: Daemon, tid: nat, m: Move, u: nat)
    requires Safe(s) && PortsDistinct(s) && CreatesOk(s)
    requires tid in s.tasks && !s.tasks[tid].Done? && Fits(s, s.tasks[tid], m)
    requires u in s.tasks && u != tid && TaskOk(s, s.tasks[u]) && TaskOk(s, s.tasks[tid])
    ensures TaskOk(Apply(s, tid, m), s.tasks[u])
  {
    var s', t, v := Apply(s, tid, m), s.tasks[tid], s.tasks[u];
    if v.Done? || m.effect.Calm? || m.effect.id != v.id {
      TaskElsewhere(s, s', v, m.effect);
    } else if m.effect.Repointed? {
      RepointedKeepsOther(s, tid, m, u);
    } else {
      OtherEffectKeepsOther(s, tid, m, u);
    }
  }

  lemma OtherEffectKeepsOther(s: Daemon, tid: nat, m: Move, u: nat)
    requires Safe(s) && CreatesOk(s) && tid in s.tasks && !s.tasks[tid].Done? && TaskOk(s, s.tasks[tid])
    requires Fits(s, s.tasks[tid], m) && !m.effect.Calm? && !m.effect.Repointed?
    requires u in s.tasks && u != tid && TaskOk(s, s.tasks[u]) && !s.tasks[u].Done? && s.tasks[u].id == m.effect.id
    ensures TaskOk(Apply(s, tid, m), s.tasks[u])
  {
    var t, v, id := s.tasks[tid], s.tasks[u], m.effect.id;
    assert Holds(v) ==> Holder(s, u, id);
    assert Holds(t) && t.id == id ==> Holder(s, tid, id);
    assert MidCreate(v) ==> BeingMade(s, id, u);
    assert MidRepoint(v) ==> Repointing(s, id, u);
    assert MidRepoint(t) && t.id == id ==> Repointing(s, id, tid);
    assert MidCreate(t) && t.id == id ==> BeingMade(s, id, tid);
    if t.Start? {
      NormalizeIdempotent(t.seen);
    }
  }

  // ---- The tunnel itself ----

  /** The other tasks are where they were. */
  lemma OthersStand(s: Daemon, tid: nat, m: Move, id: TunnelId)
    ensures forall u | u != tid :: Repointing(Apply(s, tid, m), id, u) <==> Repointing(s, id, u)
    ensures forall u | u != tid :: BeingMade(Apply(s, tid, m), id, u) <==> BeingMade(s, id, u)
  {
  }

  /** A patch opens the window in which nothing is claimed of the tunnel. */
  lemma RepointedKeepsId(s: Daemon, tid: nat, m: Move, id: TunnelId)
    requires Safe(s) && PortsDistinct(s) && IdOk(s, id)
    requires tid in s.tasks && !s.tasks[tid].Done? && Fits(s, s.tasks[tid], m) && TaskOk(s, s.tasks[tid])
    requires m.effect.Repointed?
    ensures IdOk(Apply(s, tid, m), id)
  {
    OthersStand(s, tid, m, id);
    assert s.tasks[tid].id == id ==> Repointing(Apply(s, tid, m), id, tid);
    assert s.tasks[tid].id != id ==> !Repointing(s, id, tid) && !BeingMade(s, id, tid);
  }

  /** In the middle of a repoint the installed inspector is another one. */
  lemma MidRepointElsewhere(s: Daemon, tid: nat)
    requires PortsDistinct(s) && tid in s.tasks && MidRepoint(s.tasks[tid]) && Shape(s.tasks[tid])
    requires TaskOk(s, s.tasks[tid]) && Exists(s, s.tasks[tid].id) && s.tasks[tid].id in s.world.inspectors
    ensures !LeadsTo(s, s.tasks[tid].id, s.world.inspectors[s.tasks[tid].id].port)
  {
    var t, id := s.tasks[tid], s.tasks[tid].id;
    assert PortOf(s, Installed(id)) != PortOf(s, Carried(tid));
    if InspectorEndpoint(s.world.inspectors[id].port) == InspectorEndpoint(t.handle.value.port) {
      InspectorInjective(s.world.inspectors[id].port, t.handle.value.port);
    }
  }

  /** The install, or the failure to get there, closes the window. */
  lemma EndingKeepsId(s: Daemon, tid: nat, m: Move, id: TunnelId)
    requires Safe(s) && PortsDistinct(s) && IdOk(s, id)
    requires tid in s.tasks && !s.tasks[tid].Done? && Fits(s, s.tasks[tid], m) && TaskOk(s, s.tasks[tid])
    requires m.effect.Seated? || m.effect.Forsaken?
    ensures IdOk(Apply(s, tid, m), id)
  {
    var s', t := Apply(s, tid, m), s.tasks[tid];
    OthersStand(s, tid, m, id);
    if t.id != id {
      assert !Repointing(s, id, tid) && !Repointing(s', id, tid) && !BeingMade(s, id, tid) && !BeingMade(s', id, tid);
    } else if MidRepoint(t) {
      assert Repointing(s, id, tid);
      if id in s.world.inspectors && Exists(s, id) {
        MidRepointElsewhere(s, tid);
      }
    } else {
      assert BeingMade(s, id, tid);
      assert Repointing(s', id, tid) <==> Repointing(s, id, tid);
    }
  }

  lemma SavingKeepsId(s: Daemon, tid: nat, m: Move, id: TunnelId)
    requires Safe(s) && PortsDistinct(s) && IdOk(s, id)
    requires tid in s.tasks && !s.tasks[tid].Done? && Fits(s, s.tasks[tid], m) && TaskOk(s, s.tasks[tid])
    requires m.effect.Saved? || m.effect.Botched?
    ensures IdOk(Apply(s, tid, m), id)
  {
    var s', t := Apply(s, tid, m), s.tasks[tid];
    OthersStand(s, tid, m, id);
    assert Repointing(s', id, tid) <==> Repointing(s, id, tid);
    assert BeingMade(s', id, tid) <==> BeingMade(s, id, tid);
  }

  lemma OtherEffectKeepsId(s: Daemon, tid: nat, m: Move, id: TunnelId)
    requires Safe(s) && PortsDistinct(s) && IdOk(s, id)
    requires tid in s.tasks && !s.tasks[tid].Done? && Fits(s, s.tasks[tid], m) && TaskOk(s, s.tasks[tid])
    requires !m.effect.Repointed? && !m.effect.Seated? && !m.effect.Forsaken? && !m.effect.Saved? && !m.effect.Botched?
    ensures IdOk(Apply(s, tid, m), id)
  {
    var s', t := Apply(s, tid, m), s.tasks[tid];
    OthersStand(s, tid, m, id);
    assert Repointing(s', id, tid) <==> Repointing(s, id, tid);
    assert BeingMade(s, id, tid) && !m.task.Done? ==> BeingMade(s', id, tid);
    if m.effect.Rewrote? {
      NormalizeIdempotent(t.seen);
    }
  }

  lemma ApplyKeepsId(s: Daemon, tid: nat, m: Move, id: TunnelId)
    requires Safe(s) && PortsDistinct(s) && IdOk(s, id)
    requires tid in s.tasks && !s.tasks[tid].Done? && Fits(s, s.tasks[tid], m) && TaskOk(s, s.tasks[tid])
    ensures IdOk(Apply(s, tid, m), id)
  {
    match m.effect
    case Repointed(_, _, _) => RepointedKeepsId(s, tid, m, id);
    case Seated(_, _, _, _) => EndingKeepsId(s, tid, m, id);
    case Forsaken(_, _, _) => EndingKeepsId(s, tid, m, id);
    case Saved(_, _) => SavingKeepsId(s, tid, m, id);
    case Botched(_, _) => SavingKeepsId(s, tid, m, id);
    case _ => OtherEffectKeepsId(s, tid, m, id);
  }

  // ---- The reconciliation pass ----

  lemma ApplyKeepsListed(s: Daemon, tid: nat, m: Move, i: nat)
    requires Shaped(s) && BootOk(s) && s.boot.Reconciling? && i < |s.boot.todo|
    requires tid in s.tasks && !s.tasks[tid].Done? && Fits(s, s.tasks[tid], m) && TaskOk(s, s.tasks[tid])
    ensures ListedOk(Apply(s, tid, m), i)
  {
    assert ListedOk(s, i);
  }

  lemma ApplyKeepsBoot(s: Daemon, tid: nat, m: Move)
    requires Shaped(s) && BootOk(s)
    requires tid in s.tasks && !s.tasks[tid].Done? && Fits(s, s.tasks[tid], m) && TaskOk(s, s.tasks[tid])
    ensures BootOk(Apply(s, tid, m))
  {
    if s.boot.Reconciling? {
      var s' := Apply(s, tid, m);
      forall i | 0 <= i < |s'.boot.todo| ensures ListedOk(s', i) {
        ApplyKeepsListed(s, tid, m, i);
      }
    }
  }

  lemma TaskStepKeepsPointed(s: Daemon, tid: nat, m: Move)
    requires Safe(s) && Pointed(s)
    requires tid in s.tasks && !s.tasks[tid].Done? && Fits(s, s.tasks[tid], m) && Shape(m.task)
    ensures Pointed(Apply(s, tid, m))
  {
    var s' := Apply(s, tid, m);
    ApplyKeepsPorts(s, tid, m);
    ApplyKeepsCreates(s, tid, m);
    ApplyKeepsBoot(s, tid, m);
    forall u | u in s'.tasks ensures TaskOk(s', s'.tasks[u]) {
      if u == tid { MoverKeepsOwn(s, tid, m); } else { OthersKeep(s, tid, m, u); }
    }
    forall id ensures IdOk(s', id) { ApplyKeepsId(s, tid, m, id); }
  }

  /** A new task that has read and written nothing yet. */
  lemma AddKeepsPointed(s: Daemon, tid: nat, t: Task)
    requires Pointed(s) && tid !in s.tasks
    requires HandleOf(t).None? && !MidInstall(t) && !Looking(t) && (t.Delete? ==> t.del.Server?)
    requires s.boot.Reconciling? ==>
      !t.Create? && (t.Start? ==> forall i | 0 <= i < |s.boot.todo| :: s.boot.todo[i].id != t.id)
    ensures Pointed(Add(s, tid, t))
  {
    var s' := Add(s, tid, t);
    assert forall o :: PortOf(s', o) == PortOf(s, o);
    assert forall id, u :: Repointing(s', id, u) <==> Repointing(s, id, u);
    assert forall id, u :: BeingMade(s', id, u) <==> BeingMade(s, id, u);
    forall id ensures IdOk(s', id) { assert IdOk(s, id); }
    forall u | u in s'.tasks ensures TaskOk(s', s'.tasks[u]) {
      if u != tid { assert TaskOk(s, s.tasks[u]); }
    }
    if s.boot.Reconciling? {
      forall i | 0 <= i < |s.boot.todo| ensures ListedOk(s', i) { assert ListedOk(s, i); }
    }
  }

  /** What one step of the pass may do. */
  predicate BootFits(s: Daemon, e: Effect, b': Boot)
    requires s.boot.Reconciling?
  {
    var b := s.boot;
    if b.todo == [] then e.Calm? && (b' == b || b' == Serving)
    else
      match e
      case Calm =>
        || b' == b || b' == Next(b)
        || (b'.Reconciling? && b'.todo == b.todo &&
            ( || (b.step.Load? && b'.step.Respawn?)
              || (b.step.Respawn? && b'.step.Repoint? && Free(s, b'.step.spare.port))
              || (b.step.Repoint? && b'.step == Resave(b.step.spare)
                  && InspectorEndpoint(b.step.spare.port) == TrimSlash(b.todo[0].endpoint))))
      case Repointed(id, port, raced) =>
        && b.step.Repoint? && id == b.todo[0].id && port == b.step.spare.port && !raced && Exists(s, id)
        && (b' == Next(b) || b' == At(b, Resave(b.step.spare)))
      case Saved(id, text) =>
        && b.step.Resave? && id == b.todo[0].id && text == b.step.spare.target
        && b' == At(b, Reinstall(b.step.spare, true))
      case Botched(id, _) =>
        && b.step.Resave? && id == b.todo[0].id && b' == At(b, Reinstall(b.step.spare, false))
      case Seated(id, h, saved, stranded) =>
        && b.step.Reinstall? && id == b.todo[0].id && h == b.step.spare && saved == b.step.stored && !stranded
        && b' == At(b, Resume)
      case _ => false
  }

  lemma StepBootFits(s: Daemon, c: Choice)
    requires s.boot.Reconciling?
    ensures BootFits(s, StepBoot(s, c).0, StepBoot(s, c).1)
  {
    match s.boot.step
    case Load =>
    case Respawn(_) =>
    case Repoint(_) =>
    case Resave(_) =>
    case Reinstall(_, _) =>
    case Resume =>
  }

  /** The pass performs a step, before it resumes the tunnel. */
  function Passed(s: Daemon, e: Effect, b': Boot): Daemon {
    Daemon(s.mem, Perform(s.world, e), s.tasks, b')
  }

  lemma BootKeepsPorts(s: Daemon, e: Effect, b': Boot)
    requires s.boot.Reconciling? && PortsDistinct(s) && BootFits(s, e, b')
    ensures PortsDistinct(Passed(s, e, b'))
  {
    var s' := Passed(s, e, b');
    assert forall tid :: PortOf(s', Carried(tid)) == PortOf(s, Carried(tid));
    forall o, p | o != p && PortOf(s', o).Some? ensures PortOf(s', o) != PortOf(s', p) {
      if e.Seated? {
        assert PortOf(s, Booting) == Some(e.handle.port) == PortOf(s', Installed(e.id));
        assert forall id | id != e.id :: PortOf(s', Installed(id)) == PortOf(s, Installed(id));
        assert PortOf(s', Booting).None?;
      } else {
        assert forall id :: PortOf(s', Installed(id)) == PortOf(s, Installed(id));
        if PortOf(s', Booting).Some? && PortOf(s', Booting) != PortOf(s, Booting) {
          FreePort(s, PortOf(s', Booting).value, o);
          FreePort(s, PortOf(s', Booting).value, p);
        }
      }
    }
  }

  lemma BootKeepsTask(s: Daemon, e: Effect, b': Boot, u: nat)
    requires s.boot.Reconciling? && BootOk(s) && BootFits(s, e, b')
    requires u in s.tasks && TaskOk(s, s.tasks[u])
    ensures TaskOk(Passed(s, e, b'), s.tasks[u])
  {
  }

  lemma BootKeepsId(s: Daemon, e: Effect, b': Boot, id: TunnelId)
    requires s.boot.Reconciling? && BootOk(s) && BootFits(s, e, b') && IdOk(s, id)
    ensures IdOk(Passed(s, e, b'), id)
  {
    var s' := Passed(s, e, b');
    assert forall u :: Repointing(s', id, u) <==> Repointing(s, id, u);
    assert forall u :: BeingMade(s', id, u) <==> BeingMade(s, id, u);
    if s.boot.todo != [] {
      assert ListedOk(s, 0);
    }
  }

  lemma BootKeepsListed(s: Daemon, e: Effect, b': Boot, i: nat)
    requires s.boot.Reconciling? && BootOk(s) && BootFits(s, e, b') && b'.Reconciling? && i < |b'.todo|
    ensures ListedOk(Passed(s, e, b'), i)
  {
    var s' := Passed(s, e, b');
    assert ListedOk(s, 0);
    var j := if b'.todo == s.boot.todo then i else i + 1;
    assert b'.todo[i] == s.boot.todo[j] && ListedOk(s, j);
    assert j > 0 ==> s.boot.todo[0].id != s.boot.todo[j].id;
    if s.boot.step.Repoint? {
      InspectorCanon(s.boot.step.spare.port);
    }
  }

  lemma PassKeepsPointed(s: Daemon, e: Effect, b': Boot)
    requires s.boot.Reconciling? && Pointed(s) && BootFits(s, e, b')
    ensures Pointed(Passed(s, e, b'))
  {
    var s' := Passed(s, e, b');
    BootKeepsPorts(s, e, b');
    assert forall id, u :: Repointing(s', id, u) <==> Repointing(s, id, u);
    assert forall id, u :: BeingMade(s', id, u) <==> BeingMade(s, id, u);
    forall id ensures IdOk(s', id) { BootKeepsId(s, e, b', id); }
    forall u | u in s'.tasks ensures TaskOk(s', s'.tasks[u]) { BootKeepsTask(s, e, b', u); }
    if b'.Reconciling? {
      forall i | 0 <= i < |b'.todo| ensures ListedOk(s', i) { BootKeepsListed(s, e, b', i); }
      assert b'.todo == s.boot.todo || b'.todo == s.boot.todo[1..];
    }
  }

  lemma BootStepKeepsPointed(s: Daemon, c: Choice)
    requires s.boot.Reconciling? && Pointed(s)
    ensures Pointed(ApplyBoot(s, c))
  {
    StepBootFits(s, c);
    var (e, b') := StepBoot(s, c);
    PassKeepsPointed(s, e, b');
    if Resumes(s, c) {
      AddKeepsPointed(Passed(s, e, b'), c.port, NewStart(s.boot.todo[0].id, None));
    }
  }

  // ---- Every run ----

  lemma RebootPointed(s: Daemon, order: seq<TunnelId>, enabled: set<TunnelId>)
    requires Pointed(s)
    ensures Pointed(Reboot(s, order, enabled))
  {
    var s' := Reboot(s, order, enabled);
    if s' != s {
      forall i | 0 <= i < |s'.boot.todo| ensures ListedOk(s', i) {}
      forall id ensures IdOk(s', id) {}
    }
  }

  /** A detached write that lands touches the file of an id on record only. */
  lemma LandKeepsPointed(s: Daemon, id: TunnelId, left: Option<string>)
    requires Pointed(s)
    ensures Pointed(Step(s, Land(id, left)))
  {
    var s' := Step(s, Land(id, left));
    if s' != s {
      assert forall o :: PortOf(s', o) == PortOf(s, o);
      assert forall i, u :: Repointing(s', i, u) <==> Repointing(s, i, u);
      assert forall i, u :: BeingMade(s', i, u) <==> BeingMade(s, i, u);
      forall i ensures IdOk(s', i) { assert IdOk(s, i); }
      forall u | u in s'.tasks ensures TaskOk(s', s'.tasks[u]) { assert TaskOk(s, s.tasks[u]); }
      if s.boot.Reconciling? {
        forall i | 0 <= i < |s.boot.todo| ensures ListedOk(s', i) { assert ListedOk(s, i); }
      }
    }
  }

  lemma StepKeepsPointed(s: Daemon, e: Event)
    requires Safe(s) && Pointed(s)
    ensures Pointed(Step(s, e))
  {
    match e
    case Advance(tid, c) =>
      if tid in s.tasks && !s.tasks[tid].Done? {
        StepFits(s, s.tasks[tid], c);
        StepDelta(s, s.tasks[tid], c);
        TaskStepKeepsPointed(s, tid, StepTask(s, s.tasks[tid], c));
      } else if tid in s.tasks {
        assert Step(s, e).tasks == s.tasks;
      }
    case Abandon(tid, writing) =>
      if tid in s.tasks && !s.tasks[tid].Done? {
        DropFits(s, s.tasks[tid], writing);
        DropDelta(s, s.tasks[tid], writing);
        TaskStepKeepsPointed(s, tid, DropTask(s, s.tasks[tid], writing));
      } else if tid in s.tasks {
        assert Step(s, e).tasks == s.tasks;
      }
    case BootStep(c) =>
      if s.boot.Reconciling? { BootStepKeepsPointed(s, c); }
    case Restart(order, enabled) => RebootPointed(s, order, enabled);
    case Land(id, left) => LandKeepsPointed(s, id, left);
    case SpawnStart(tid, id, wanted) =>
      if Step(s, e) != s { AddKeepsPointed(s, tid, NewStart(id, wanted)); }
    case SpawnStop(tid, id) =>
      if Step(s, e) != s { AddKeepsPointed(s, tid, Stop(id, StopClaim, None)); }
    case SpawnDelete(tid, id) =>
      if Step(s, e) != s { AddKeepsPointed(s, tid, Delete(id, Server, None)); }
    case SpawnCreate(tid, target) =>
      if Step(s, e) != s { AddKeepsPointed(s, tid, Create("", CreateSpawn, target, None)); }
  }

  /** Over every run: for every tunnel that has an installed inspector and an
      existing proxy, outside the window between a repoint's patch and its
      install, the proxy leads to that inspector if and only if the tunnel is
      not stranded; and unless its last install failed to write it, raced a
      create or was cut off, the target file names what the inspector serves. */
  lemma {:induction false} EveryRunPointed(proxies: map<TunnelId, string>, persisted: map<TunnelId, string>, events: seq<Event>)
    ensures Pointed(Run(Fresh(proxies, persisted), events))
  {
    if events == [] {
      var s := Fresh(proxies, persisted);
      forall id ensures IdOk(s, id) {}
    } else {
      var before := Run(Fresh(proxies, persisted), events[..|events| - 1]);
      EveryRunPointed(proxies, persisted, events[..|events| - 1]);
      EveryRunSafe(proxies, persisted, events[..|events| - 1]);
      StepKeepsPointed(before, events[|events| - 1]);
    }
  }
}
