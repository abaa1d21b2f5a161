/**
  Waiting for a tunnel to come up: poll, report each step's transitions once,
  remind about steps that stay pending, stop on success or terminal failure.
 */
module Progress {
  import opened Text

  datatype Kind =
    | ProxyAccepted | CertificatesReady | ConnectorReady | IrohDnsPublished | ProxyProgrammed | ConnectorMetadataProgrammed

  datatype Status = Unknown | Pending | Ready

  /** A polled step; `at` is the clock, in milliseconds, when it is handled. */
  datatype Step = Step(kind: Kind, status: Status, reason: Option<string>, at: nat)

  datatype Poll = PollError | Disappeared | Polled(steps: seq<Step>)

  datatype Event =
    | Callback(kind: Kind, prev: Status, status: Status)
    | Waiting(kind: Kind, secs: nat)

  datatype Outcome = Succeeded(steps: seq<Step>) | Failed(step: Step) | Lost | Errored | StillWaiting

  const DEFERRED_TO_OWNER := "DeferredToOwner"

  predicate IsTerminalFailure(s: Step) {
    s.kind == IrohDnsPublished && s.status == Pending && s.reason == Some(DEFERRED_TO_OWNER)
  }

  predicate StepReady(s: Step) {
    s.status == Ready || (s.kind == ConnectorMetadataProgrammed && s.status == Unknown)
  }

  /** `all_ready`: the metadata step may stay unknown. */
  predicate AllReady(steps: seq<Step>) {
    forall i | 0 <= i < |steps| :: StepReady(steps[i])
  }

  predicate AnyTerminal(steps: seq<Step>) {
    exists i | 0 <= i < |steps| :: IsTerminalFailure(steps[i])
  }

  // ---- What the polls said ----

  function LastStatus(steps: seq<Step>, k: Kind): Status {
    if steps == [] then Unknown
    else if steps[|steps| - 1].kind == k then steps[|steps| - 1].status
    else LastStatus(steps[..|steps| - 1], k)
  }

  /** When the current pending stretch of `k` began, if it is pending. */
  function Since(steps: seq<Step>, k: Kind): Option<nat> {
    if steps == [] then None
    else
      var s, before := steps[|steps| - 1], Since(steps[..|steps| - 1], k);
      if s.kind != k then before
      else if s.status != Pending then None
      else if before.Some? then before
      else Some(s.at)
  }

  lemma StepsOneMore(steps: seq<Step>, s: Step)
    ensures forall k :: LastStatus(steps + [s], k) == if s.kind == k then s.status else LastStatus(steps, k)
    ensures forall k | k != s.kind :: Since(steps + [s], k) == Since(steps, k)
    ensures s.status != Pending ==> Since(steps + [s], s.kind) == None
    ensures s.status == Pending ==>
      Since(steps + [s], s.kind) == if Since(steps, s.kind).Some? then Since(steps, s.kind) else Some(s.at)
  {
    assert (steps + [s])[..|steps|] == steps;
  }

  // ---- What was reported ----

  function Reported(log: seq<Event>, k: Kind): Status {
    if log == [] then Unknown
    else
      var e := log[|log| - 1];
      if e.Callback? && e.kind == k then e.status else Reported(log[..|log| - 1], k)
  }

  /** Seconds printed by the last reminder for `k` since its last transition. */
  function LastWait(log: seq<Event>, k: Kind): nat {
    if log == [] then 0
    else
      var e := log[|log| - 1];
      if e.kind != k then LastWait(log[..|log| - 1], k)
      else if e.Callback? then 0
      else e.secs
  }

  /** Each callback starts where the last one for its kind ended, and moves;
      each reminder comes ten seconds or more after the one before. */
  predicate Proper(log: seq<Event>) {
    forall i | 0 <= i < |log| ::
      match log[i]
      case Callback(k, prev, status) => prev == Reported(log[..i], k) && status != prev
      case Waiting(k, secs) => secs >= 10 && secs >= LastWait(log[..i], k) + 10 && Reported(log[..i], k) == Pending
  }

  lemma ProperOneMore(log: seq<Event>, e: Event)
    requires Proper(log)
    requires e.Callback? ==> e.prev == Reported(log, e.kind) && e.status != e.prev
    requires e.Waiting? ==> e.secs >= 10 && e.secs >= LastWait(log, e.kind) + 10 && Reported(log, e.kind) == Pending
    ensures Proper(log + [e])
    ensures forall k :: Reported(log + [e], k) == if e.Callback? && e.kind == k then e.status else Reported(log, k)
    ensures forall k :: LastWait(log + [e], k) == if e.kind != k then LastWait(log, k) else if e.Callback? then 0 else e.secs
  {
    var longer := log + [e];
    assert longer[..|log|] == log;
    forall i | 0 <= i < |log| ensures longer[..i] == log[..i] && longer[i] == log[i] {}
  }

  /** In a proper log, two reminders for one kind with no transition between
      them are at least ten seconds apart. */
  lemma {:induction false} RemindersSpaced(log: seq<Event>, i: nat, j: nat)
    requires Proper(log) && i < j < |log| && log[i].Waiting? && log[j].Waiting? && log[i].kind == log[j].kind
    requires forall m | i < m < j :: !(log[m].Callback? && log[m].kind == log[i].kind)
    ensures log[j].secs >= log[i].secs + 10
  {
    LastWaitGrows(log, i, j);
  }

  lemma {:induction false} LastWaitGrows(log: seq<Event>, i: nat, j: nat)
    requires Proper(log) && i < j <= |log| && log[i].Waiting?
    requires forall m | i < m < j :: !(log[m].Callback? && log[m].kind == log[i].kind)
    ensures LastWait(log[..j], log[i].kind) >= log[i].secs
    decreases j
  {
    assert log[..j][..j - 1] == log[..j - 1];
    if j > i + 1 {
      LastWaitGrows(log, i, j - 1);
    }
  }

  // ---- The loop ----

  class Watcher {
    var lastSeen: map<Kind, Status>
    var pendingSince: map<Kind, nat>
    var lastPrint: map<Kind, nat>
    var log: seq<Event>
    ghost var steps: seq<Step>    // every step handled so far
    ghost var clock: nat

    function Seen(k: Kind): Status
      reads this
    {
      if k in lastSeen then lastSeen[k] else Unknown
    }

    function Start(k: Kind): Option<nat>
      reads this
    {
      if k in pendingSince then Some(pendingSince[k]) else None
    }

    function Printed(k: Kind): nat
      reads this
    {
      if k in lastPrint then lastPrint[k] else 0
    }

    /** The three maps say what the polls and the log say. */
    ghost predicate KindOk(k: Kind)
      reads this
    {
      && LastStatus(steps, k) == Seen(k) == Reported(log, k)
      && Since(steps, k) == Start(k)
      && LastWait(log, k) == Printed(k)
      && (if Seen(k) == Pending then Start(k).Some? && Start(k).value + 1000 * Printed(k) <= clock
          else Start(k).None? && Printed(k) == 0)
    }

    ghost predicate Valid()
      reads this
    {
      Proper(log) && forall k :: KindOk(k)
    }

    constructor ()
      ensures Valid() && steps == [] && log == [] && clock == 0
    {
      lastSeen, pendingSince, lastPrint, log := map[], map[], map[], [];
      steps, clock := [], 0;
    }

    /** Report a transition. */
    method Diff(s: Step)
      requires Proper(log) && Seen(s.kind) == Reported(log, s.kind)
      modifies `log, `lastSeen
      ensures Proper(log) && old(log) <= log
      ensures forall k :: Reported(log, k) == if k == s.kind then s.status else old(Reported(log, k))
      ensures forall k :: Seen(k) == if k == s.kind then s.status else old(Seen(k))
      ensures forall k :: LastWait(log, k) == if k == s.kind && old(Seen(k)) != s.status then 0 else old(LastWait(log, k))
    {
      var prev := Seen(s.kind);
      if prev != s.status {
        ProperOneMore(log, Callback(s.kind, prev, s.status));
        log := log + [Callback(s.kind, prev, s.status)];
        lastSeen := lastSeen[s.kind := s.status];
      }
    }

    /** Track a pending stretch and remind every ten seconds. `secs - last`
        never underflows. */
    method Track(s: Step)
      requires Proper(log) && Reported(log, s.kind) == s.status
      requires s.status == Pending ==> LastWait(log, s.kind) == Printed(s.kind)
      requires s.status == Pending ==>
        if Start(s.kind).Some? then Start(s.kind).value + 1000 * Printed(s.kind) <= s.at else Printed(s.kind) == 0
      modifies `log, `pendingSince, `lastPrint
      ensures Proper(log) && old(log) <= log
      ensures forall k :: Reported(log, k) == old(Reported(log, k))
      ensures forall k | k != s.kind :: Start(k) == old(Start(k)) && Printed(k) == old(Printed(k)) && LastWait(log, k) == old(LastWait(log, k))
      ensures s.status != Pending ==> Start(s.kind).None? && Printed(s.kind) == 0 && log == old(log)
      ensures s.status == Pending ==> (Start(s.kind) == (if old(Start(s.kind)).Some? then old(Start(s.kind)) else Some(s.at))
        && LastWait(log, s.kind) == Printed(s.kind) && Start(s.kind).value + 1000 * Printed(s.kind) <= s.at
        && (s.at - Start(s.kind).value) / 1000 < Printed(s.kind) + 10)
    {
      if s.status == Pending {
        if s.kind !in pendingSince {
          pendingSince := pendingSince[s.kind := s.at];
        }
        var secs := (s.at - pendingSince[s.kind]) / 1000;
        var last := Printed(s.kind);
        var gap: nat := secs - last;
        if secs >= 10 && gap >= 10 {
          ProperOneMore(log, Waiting(s.kind, secs));
          log := log + [Waiting(s.kind, secs)];
          lastPrint := lastPrint[s.kind := secs];
        }
      } else {
        pendingSince := pendingSince - {s.kind};
        lastPrint := lastPrint - {s.kind};
      }
    }

    /** Handle one polled step. No reminder is overdue afterwards. */
    method Handle(s: Step)
      requires Valid() && clock <= s.at
      modifies this
      ensures Valid() && steps == old(steps) + [s] && clock == s.at && old(log) <= log
      ensures s.status == Pending ==> (Since(steps, s.kind).Some?
        && (s.at - Since(steps, s.kind).value) / 1000 < LastWait(log, s.kind) + 10)
    {
      StepsOneMore(steps, s);
      assert KindOk(s.kind);
      Diff(s);
      Track(s);
      steps, clock := steps + [s], s.at;
      forall k ensures KindOk(k) {
        assert old(KindOk(k));
      }
    }
  }

  /** The steps of the first `n` polls. */
  function AllSteps(polls: seq<Poll>, n: nat): seq<Step>
    requires n <= |polls|
  {
    if n == 0 then [] else AllSteps(polls, n - 1) + StepsOf(polls[n - 1])
  }

  function StepsOf(p: Poll): seq<Step> {
    if p.Polled? then p.steps else []
  }

  function ClockAfter(clock: nat, steps: seq<Step>): nat
    decreases |steps|
  {
    if steps == [] then clock else ClockAfter(steps[0].at, steps[1..])
  }

  /** The steps are handled in order of time, none before `clock`. */
  predicate InOrder(clock: nat, steps: seq<Step>)
    decreases |steps|
  {
    steps != [] ==> clock <= steps[0].at && InOrder(steps[0].at, steps[1..])
  }

  /** The clock runs forward from `clock` through the polls from the i-th on. */
  predicate PollsInOrder(clock: nat, polls: seq<Poll>, i: nat)
    decreases |polls| - i
  {
    i < |polls| ==> InOrder(clock, StepsOf(polls[i])) && PollsInOrder(ClockAfter(clock, StepsOf(polls[i])), polls, i + 1)
  }

  /** `terminal_failure`: the first one. */
  function TerminalFailure(steps: seq<Step>): Option<Step> {
    if steps == [] then None
    else if IsTerminalFailure(steps[0]) then Some(steps[0])
    else TerminalFailure(steps[1..])
  }

  lemma {:induction false} TerminalFailureFound(steps: seq<Step>)
    ensures TerminalFailure(steps).Some? <==> AnyTerminal(steps)
    ensures TerminalFailure(steps).Some? ==> TerminalFailure(steps).value in steps && IsTerminalFailure(TerminalFailure(steps).value)
  {
    if steps != [] {
      TerminalFailureFound(steps[1..]);
      assert forall i | 1 <= i < |steps| :: steps[i] == steps[1..][i - 1];
    }
  }

  /** How the loop goes on after a poll. */
  function Decide(p: Poll): Outcome {
    match p
    case PollError => Errored
    case Disappeared => Lost
    case Polled(steps) =>
      var failure := TerminalFailure(steps);
      if failure.Some? then Failed(failure.value)
      else if AllReady(steps) then Succeeded(steps)
      else StillWaiting
  }

  /** By kinds and statuses: a poll succeeds exactly if every step is ready, the
      metadata step alone also when unknown, and fails exactly if the DNS step is
      pending because another connector owns the record. */
  lemma DecideByStatus(steps: seq<Step>)
    ensures Decide(Polled(steps)).Failed? <==>
      exists i | 0 <= i < |steps| ::
        steps[i].kind == IrohDnsPublished && steps[i].status == Pending && steps[i].reason == Some("DeferredToOwner")
    ensures Decide(Polled(steps)).Succeeded? <==>
      forall i | 0 <= i < |steps| ::
        steps[i].status == Ready || (steps[i].kind == ConnectorMetadataProgrammed && steps[i].status == Unknown)
  {
    TerminalFailureFound(steps);
    if AnyTerminal(steps) {
      var i :| 0 <= i < |steps| && IsTerminalFailure(steps[i]);
      assert !StepReady(steps[i]);
    }
  }

  /** Success is an all-ready poll without terminal failure and nothing else;
      only a poll that is neither is waited through. */
  lemma DecideMeans(p: Poll)
    ensures p.Polled? ==> (Decide(p).Succeeded? <==> AllReady(p.steps) && !AnyTerminal(p.steps))
    ensures Decide(p).Succeeded? ==> p.Polled? && Decide(p).steps == p.steps
    ensures Decide(p).Failed? <==> p.Polled? && AnyTerminal(p.steps)
    ensures Decide(p).Failed? ==> Decide(p).step in p.steps && IsTerminalFailure(Decide(p).step)
    ensures Decide(p).StillWaiting? <==> p.Polled? && !AllReady(p.steps) && !AnyTerminal(p.steps)
  {
    if p.Polled? {
      TerminalFailureFound(p.steps);
    }
  }

  /** Handle every step of one poll. */
  method HandleAll(w: Watcher, steps: seq<Step>)
    requires w.Valid() && InOrder(w.clock, steps)
    modifies w
    ensures w.Valid() && w.steps == old(w.steps) + steps && w.clock == ClockAfter(old(w.clock), steps)
  {
    for i := 0 to |steps|
      invariant w.Valid() && w.steps == old(w.steps) + steps[..i]
      invariant InOrder(w.clock, steps[i..]) && ClockAfter(w.clock, steps[i..]) == ClockAfter(old(w.clock), steps)
    {
      assert steps[i..][1..] == steps[i + 1..] && steps[i..][0] == steps[i];
      w.Handle(steps[i]);
      assert steps[..i + 1] == steps[..i] + [steps[i]];
    }
    assert steps[..|steps|] == steps;
  }

  /** One poll: report its transitions, then decide. */
  method Judge(w: Watcher, p: Poll) returns (outcome: Outcome)
    requires w.Valid() && InOrder(w.clock, StepsOf(p))
    modifies w
    ensures w.Valid() && w.steps == old(w.steps) + StepsOf(p) && w.clock == ClockAfter(old(w.clock), StepsOf(p))
    ensures outcome == Decide(p)
  {
    match p
    case PollError => outcome := Errored;
    case Disappeared => outcome := Lost;
    case Polled(steps) =>
      HandleAll(w, steps);
      var failure := TerminalFailure(steps);
      outcome :=
        if failure.Some? then Failed(failure.value)
        else if AllReady(steps) then Succeeded(steps)
        else StillWaiting;
  }

  /** None of the first `n` polls decided anything. */
  predicate WaitedThrough(polls: seq<Poll>, n: nat)
    requires n <= |polls|
  {
    n == 0 || (WaitedThrough(polls, n - 1) && Decide(polls[n - 1]) == StillWaiting)
  }

  lemma {:induction false} WaitedThroughAll(polls: seq<Poll>, n: nat)
    requires n <= |polls| && WaitedThrough(polls, n)
    ensures forall i | 0 <= i < n :: Decide(polls[i]) == StillWaiting
  {
    if n > 0 {
      WaitedThroughAll(polls, n - 1);
    }
  }

  /** Poll until something is decided. */
  method PollLoop(w: Watcher, polls: seq<Poll>) returns (outcome: Outcome, used: nat)
    requires w.Valid() && w.steps == [] && PollsInOrder(w.clock, polls, 0)
    modifies w
    ensures w.Valid() && used <= |polls| && w.steps == AllSteps(polls, used)
    ensures used > 0 ==> WaitedThrough(polls, used - 1)
    ensures outcome == if used == 0 then StillWaiting else Decide(polls[used - 1])
    ensures outcome.StillWaiting? ==> used == |polls|
  {
    outcome, used := StillWaiting, 0;
    while used < |polls| && outcome.StillWaiting?
      invariant 0 <= used <= |polls| && w.Valid() && w.steps == AllSteps(polls, used)
      invariant PollsInOrder(w.clock, polls, used)
      invariant used > 0 ==> WaitedThrough(polls, used - 1)
      invariant outcome == if used == 0 then StillWaiting else Decide(polls[used - 1])
      decreases |polls| - used
    {
      outcome := Judge(w, polls[used]);
      used := used + 1;
    }
  }

  /** `await_tunnel_progress` over any poll sequence, the clock running forward:
      the log is proper, the last status reported for each kind is the last one
      polled, and the loop stops exactly at the first poll that decides. */
  method AwaitProgress(polls: seq<Poll>) returns (outcome: Outcome, log: seq<Event>, used: nat)
    requires PollsInOrder(0, polls, 0)
    ensures Proper(log) && used <= |polls|
    ensures forall k :: Reported(log, k) == LastStatus(AllSteps(polls, used), k)
    ensures forall i | 0 <= i < used - 1 :: Decide(polls[i]) == StillWaiting
    ensures outcome == if used == 0 then StillWaiting else Decide(polls[used - 1])
    ensures outcome.StillWaiting? ==> used == |polls|
  {
    var w := new Watcher();
    outcome, used := PollLoop(w, polls);
    log := w.log;
    if used > 0 {
      WaitedThroughAll(polls, used - 1);
    }
    forall k ensures Reported(log, k) == LastStatus(AllSteps(polls, used), k) {
      assert w.KindOk(k);
    }
  }
}
