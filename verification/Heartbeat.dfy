/**
  The lease heartbeat of one project: a loop over a connector cache and a
  backoff, driven by whatever the API answers. What it did is a trace, judged
  by an observer that knows only the trace.
 */
module Heartbeat {
  import opened Text

  const DEFAULT_LEASE_DURATION_SECS := 30
  const BACKOFF_INITIAL := 2
  const BACKOFF_MAX := 30

  // ---- Backoff and renewal arithmetic ----

  function Min(a: nat, b: nat): nat {
    if a < b then a else b
  }

  function Max(a: int, b: int): int {
    if a < b then b else a
  }

  /** The k-th wait after a reset. */
  function Wait(k: nat): nat {
    Min(Pow2(k + 1), BACKOFF_MAX)
  }

  class Backoff {
    var current: nat
    ghost var taken: nat    // waits handed out since the last reset

    ghost predicate Valid()
      reads this
    {
      current == Wait(taken)
    }

    constructor ()
      ensures Valid() && taken == 0
    {
      current, taken := BACKOFF_INITIAL, 0;
    }

    method Next() returns (wait: nat)
      requires Valid()
      modifies this
      ensures Valid() && taken == old(taken) + 1
      ensures wait == Min(Pow2(old(taken) + 1), 30) && wait >= 2
    {
      wait := current;
      current := Min(current * 2, BACKOFF_MAX);
      taken := taken + 1;
      assert Pow2(taken + 1) == 2 * Pow2(taken) && Pow2(taken) == 2 * Pow2(taken - 1);
    }

    method Reset()
      modifies this
      ensures Valid() && taken == 0
    {
      current, taken := BACKOFF_INITIAL, 0;
    }
  }

  function IntervalBase(lease: int): nat {
    Max(Max(lease, 1) / 2, 1)
  }

  function JitterMax(lease: int): nat {
    Max(IntervalBase(lease) / 5, 1)
  }

  /** `renewal_interval`, the random jitter given. */
  function RenewalInterval(lease: int, jitter: nat): nat {
    IntervalBase(lease) + jitter
  }

  /** Seconds slept over `n` failed renewals in a row after a success. */
  function Retries(n: nat): nat {
    if n == 0 then 0 else Retries(n - 1) + Wait(n - 1)
  }

  /** After a renewal, `n` failures in a row and then a success stay within the
      lease, whatever the jitter. */
  predicate Survives(lease: int, n: nat) {
    forall jitter | 0 <= jitter <= JitterMax(lease) :: RenewalInterval(lease, jitter) + Retries(n) < lease
  }

  lemma RenewsInTime(lease: int, jitter: nat)
    requires jitter <= JitterMax(lease)
    ensures RenewalInterval(lease, jitter) >= 1
    ensures lease >= 3 ==> RenewalInterval(lease, jitter) < lease
  {
  }

  lemma SurvivesByWorstJitter(lease: int, n: nat)
    ensures Survives(lease, n) <==> RenewalInterval(lease, JitterMax(lease)) + Retries(n) < lease
  {
  }

  /** Undisturbed renewal works from 3 seconds up, two failures are survived
      from 15 seconds up, and the default lease survives two and no more. */
  lemma SurvivalThresholds(lease: int)
    ensures Survives(lease, 0) <==> lease >= 3
    ensures Survives(lease, 2) <==> lease >= 15
    ensures forall n: nat :: Survives(DEFAULT_LEASE_DURATION_SECS, n) <==> n <= 2
  {
    assert Pow2(1) == 2 && Pow2(2) == 4 && Pow2(3) == 8;
    assert Retries(1) == 2 && Retries(2) == 6 && Retries(3) == 14;
    SurvivesByWorstJitter(lease, 0);
    SurvivesByWorstJitter(lease, 2);
    forall n: nat ensures Survives(DEFAULT_LEASE_DURATION_SECS, n) <==> n <= 2 {
      SurvivesByWorstJitter(DEFAULT_LEASE_DURATION_SECS, n);
      if n >= 3 {
        RetriesGrow(3, n);
      }
    }
  }

  lemma {:induction false} RetriesGrow(m: nat, n: nat)
    requires m <= n
    ensures Retries(m) <= Retries(n)
  {
    if m < n {
      RetriesGrow(m, n - 1);
    }
  }

  // ---- Traces ----

  datatype Err = NotFound | Unauthorized | OtherError

  datatype Reply<+T> = Ok(value: T) | Fail(err: Err)

  /** What a connector object tells: its name, lease reference and home relay. */
  datatype Seen = Seen(name: string, lease: Option<string>, relay: Option<string>)

  datatype Act =
    | ClientFailed
    | Lookup(found: Reply<Option<Seen>>)
    | Fetch(name: string, got: Reply<Seen>)
    | Details(relay: Option<string>, given: Option<string>)    // read from the node, by fallback relay
    | PatchDetails(name: string, details: string, patched: Reply<()>)
    | GetLease(lease: string, duration: Reply<Option<int>>)
    | Renew(lease: string, renewed: Reply<()>)
    | RefreshAuth
    | Sleep(secs: nat)

  datatype Known = Known(
    name: string, lease: Option<string>, relay: Option<string>, duration: Option<int>, published: Option<string>)

  /** This iteration so far: the details the node gave, whether their patch was
      refused, whether the lease was asked for its duration and answered. */
  datatype Round = Round(current: Option<string>, refused: bool, asked: bool)

  function NewRound(): Round {
    Round(None, false, false)
  }

  /** Where the observer is: calls may follow; a 401 is owed a token refresh; a
      backoff sleep is due; an interval sleep is due. */
  datatype Phase = Working | Owing | Failing | Beaten

  datatype Observer = Observer(known: Option<Known>, failures: nat, phase: Phase, round: Round)

  function Failed(o: Observer, e: Err): Observer {
    o.(phase := if e == Unauthorized then Owing else Failing)
  }

  /** `classify_lease_error`: only a 404 forgets the connector. */
  function LeaseFailed(o: Observer, e: Err): Observer {
    Failed(if e == NotFound then o.(known := None) else o, e)
  }

  /** The next state, or nothing when the act is not allowed now. */
  function Observe(o: Observer, a: Act): Option<Observer> {
    match a
    case RefreshAuth => if o.phase == Owing then Some(o.(phase := Failing)) else None
    case Sleep(s) =>
      if o.phase == Failing && s == Wait(o.failures) then Some(Observer(o.known, o.failures + 1, Working, NewRound()))
      else if o.phase == Beaten && o.known.Some? && InInterval(s, o.known.value.duration)
      then Some(Observer(o.known, 0, Working, NewRound()))
      else None
    case _ => if o.phase == Working then ObserveCall(o, a) else None
  }

  function LeaseOr(duration: Option<int>): int {
    if duration.Some? then duration.value else DEFAULT_LEASE_DURATION_SECS
  }

  predicate InInterval(s: nat, duration: Option<int>) {
    IntervalBase(LeaseOr(duration)) <= s <= IntervalBase(LeaseOr(duration)) + JitterMax(LeaseOr(duration))
  }

  lemma DrawnInInterval(duration: Option<int>, jitter: nat)
    ensures InInterval(RenewalInterval(LeaseOr(duration), jitter % (JitterMax(LeaseOr(duration)) + 1)), duration)
  {
  }

  function ObserveCall(o: Observer, a: Act): Option<Observer> {
    match a
    case ClientFailed => Some(o.(phase := Failing))
    case Lookup(found) =>
      if o.known.Some? then None
      else (match found
        case Ok(Some(s)) => Some(Observer(Some(Known(s.name, s.lease, s.relay, None, None)), 0, Working, o.round))
        case Ok(None) => Some(o.(phase := Failing))
        case Fail(e) => Some(Failed(o, e)))
    case _ => if o.known.None? then None else ObserveKnown(o, o.known.value, a)
  }

  function Taught(k: Known, s: Seen): Known {
    if s.lease.None? then k else k.(lease := s.lease, relay := s.relay)
  }

  function ObserveKnown(o: Observer, k: Known, a: Act): Option<Observer> {
    match a
    case Fetch(name, got) =>
      if name != k.name || k.lease.Some? then None
      else if got.Fail? then Some(Failed(o.(known := None), got.err))
      else Some(o.(known := Some(Taught(k, got.value)), phase := if got.value.lease.None? then Failing else Working))
    case Details(relay, given) =>
      if k.lease.None? || relay != k.relay then None
      else if given.None? then Some(o.(phase := Failing))
      else Some(o.(round := o.round.(current := given)))
    case PatchDetails(name, details, patched) =>
      if name != k.name || o.round.current != Some(details) || k.published == Some(details) then None
      else if patched.Ok? then Some(o.(known := Some(k.(published := Some(details)))))
      else if patched.err == Unauthorized then Some(Failed(o, patched.err))
      else Some(o.(round := o.round.(refused := true)))
    case GetLease(lease, duration) =>
      if k.lease != Some(lease) || k.duration.Some? then None
      else if duration.Ok? then Some(o.(known := Some(k.(duration := duration.value)), round := o.round.(asked := true)))
      else Some(LeaseFailed(o, duration.err))
    case Renew(lease, renewed) =>
      if !MayRenew(o.round, k, lease) then None
      else if renewed.Ok? then Some(o.(phase := Beaten))
      else Some(LeaseFailed(o, renewed.err))
    case _ => None
  }

  /** The lease is the cached one; the details given in this iteration are
      published, or their patch was refused; the duration is known, or the lease
      was asked and has none. */
  predicate MayRenew(b: Round, k: Known, lease: string) {
    && k.lease == Some(lease)
    && b.current.Some? && (k.published == b.current || b.refused)
    && (k.duration.Some? || b.asked)
  }

  function ObserveAll(o: Observer, acts: seq<Act>): Option<Observer> {
    if acts == [] then Some(o)
    else
      var before := ObserveAll(o, acts[..|acts| - 1]);
      if before.Some? then Observe(before.value, acts[|acts| - 1]) else None
  }

  function Idle(): Observer {
    Observer(None, 0, Working, NewRound())
  }

  lemma ObserveOneMore(o: Observer, acts: seq<Act>, a: Act)
    ensures ObserveAll(o, acts + [a]) ==
      if ObserveAll(o, acts).Some? then Observe(ObserveAll(o, acts).value, a) else None
  {
    assert (acts + [a])[..|acts|] == acts;
  }

  // ---- What an accepted trace has done ----

  /** The lease named by the last connector seen, unless it was dropped since. */
  function LastLease(acts: seq<Act>): Option<string> {
    if acts == [] then None
    else
      match acts[|acts| - 1]
      case Lookup(Ok(Some(s))) => s.lease
      case Fetch(_, Ok(s)) => if s.lease.Some? then s.lease else LastLease(acts[..|acts| - 1])
      case Fetch(_, Fail(_)) => None
      case GetLease(_, Fail(NotFound)) => None
      case Renew(_, Fail(NotFound)) => None
      case _ => LastLease(acts[..|acts| - 1])
  }

  /** The last details patched successfully since the connector was taken up. */
  function LastPublished(acts: seq<Act>): Option<string> {
    if acts == [] then None
    else
      match acts[|acts| - 1]
      case Lookup(Ok(Some(_))) => None
      case PatchDetails(_, details, Ok(_)) => Some(details)
      case Fetch(_, Fail(_)) => None
      case GetLease(_, Fail(NotFound)) => None
      case Renew(_, Fail(NotFound)) => None
      case _ => LastPublished(acts[..|acts| - 1])
  }

  /** The duration the lease last answered since the connector was taken up. */
  function LastDuration(acts: seq<Act>): Option<int> {
    if acts == [] then None
    else
      match acts[|acts| - 1]
      case Lookup(Ok(Some(_))) => None
      case GetLease(_, Ok(d)) => d
      case Fetch(_, Fail(_)) => None
      case GetLease(_, Fail(NotFound)) => None
      case Renew(_, Fail(NotFound)) => None
      case _ => LastDuration(acts[..|acts| - 1])
  }

  /** The lease was asked and answered since the connector was taken up. */
  predicate Answered(acts: seq<Act>) {
    acts != [] &&
    match acts[|acts| - 1]
    case Lookup(Ok(Some(_))) => false
    case GetLease(_, Ok(_)) => true
    case Fetch(_, Fail(_)) => false
    case GetLease(_, Fail(NotFound)) => false
    case Renew(_, Fail(NotFound)) => false
    case _ => Answered(acts[..|acts| - 1])
  }

  /** The details the node gave in this iteration. */
  function GivenNow(acts: seq<Act>): Option<string> {
    if acts == [] then None
    else
      match acts[|acts| - 1]
      case Sleep(_) => None
      case Details(_, Some(d)) => Some(d)
      case _ => GivenNow(acts[..|acts| - 1])
  }

  /** A details patch failed in this iteration. */
  predicate RefusedNow(acts: seq<Act>) {
    acts != [] &&
    match acts[|acts| - 1]
    case Sleep(_) => false
    case PatchDetails(_, _, Fail(_)) => true
    case _ => RefusedNow(acts[..|acts| - 1])
  }

  /** A connector was taken up and not dropped since. Only a failed fetch or a
      404 on the lease drops it. */
  predicate Cached(acts: seq<Act>) {
    acts != [] &&
    match acts[|acts| - 1]
    case Lookup(Ok(Some(_))) => true
    case Fetch(_, Fail(_)) => false
    case GetLease(_, Fail(NotFound)) => false
    case Renew(_, Fail(NotFound)) => false
    case _ => Cached(acts[..|acts| - 1])
  }

  predicate Proper(acts: seq<Act>) {
    ObserveAll(Idle(), acts).Some?
  }

  lemma {:induction false} HistoryIsState(acts: seq<Act>)
    requires Proper(acts)
    ensures var known := ObserveAll(Idle(), acts).value.known;
      && (known.Some? <==> Cached(acts))
      && LastLease(acts) == (if known.Some? then known.value.lease else None)
      && LastPublished(acts) == (if known.Some? then known.value.published else None)
      && LastDuration(acts) == (if known.Some? then known.value.duration else None)
  {
    if acts != [] {
      HistoryIsState(acts[..|acts| - 1]);
    }
  }

  /** What the observer holds of this iteration is on the trace. */
  lemma {:induction false} HistoryIsRound(acts: seq<Act>)
    requires Proper(acts)
    ensures var o := ObserveAll(Idle(), acts).value;
      && GivenNow(acts) == o.round.current
      && (o.round.refused ==> RefusedNow(acts))
      && (o.known.Some? && (o.round.asked || o.known.value.duration.Some?) ==> Answered(acts))
      && (o.known.None? && o.phase == Working ==> !o.round.asked)
      && (acts != [] && acts[|acts| - 1].Renew? && acts[|acts| - 1].renewed.Ok? ==> o.phase == Beaten)
  {
    if acts != [] {
      HistoryIsRound(acts[..|acts| - 1]);
    }
  }

  lemma {:induction false} PrefixProper(acts: seq<Act>, i: nat)
    requires Proper(acts) && i <= |acts|
    ensures Proper(acts[..i])
    decreases |acts|
  {
    if i < |acts| {
      PrefixProper(acts[..|acts| - 1], i);
      assert acts[..|acts| - 1][..i] == acts[..i];
    } else {
      assert acts[..i] == acts;
    }
  }

  /** In every accepted trace: a renewal names the lease of the connector held
      at that moment, once that lease was asked for its duration and answered,
      and once the details the node gave in this iteration are the last ones
      patched or their patch failed in it; a lookup happens only when no connector
      is held, so any other failure kept it; details are patched only when they
      differ from the last ones patched. */
  lemma ProperTraces(acts: seq<Act>, i: nat)
    requires Proper(acts) && i < |acts|
    ensures acts[i].Renew? ==> (Cached(acts[..i]) && LastLease(acts[..i]) == Some(acts[i].lease) && Answered(acts[..i])
      && GivenNow(acts[..i]).Some? && (LastPublished(acts[..i]) == GivenNow(acts[..i]) || RefusedNow(acts[..i])))
    ensures acts[i].Lookup? ==> !Cached(acts[..i])
    ensures acts[i].PatchDetails? ==> (Cached(acts[..i]) && GivenNow(acts[..i]) == Some(acts[i].details)
      && LastPublished(acts[..i]) != Some(acts[i].details))
  {
    ActAllowed(acts, i);
    HistoryIsState(acts[..i]);
    HistoryIsRound(acts[..i]);
    AllowedMeans(ObserveAll(Idle(), acts[..i]).value, acts[i]);
  }

  /** Every sleep lasts at least a second. The one after a successful renewal is
      at least half the duration the lease last answered, 30 seconds if it named
      none, and below it if that is 3 seconds or more. */
  lemma ProperSleeps(acts: seq<Act>, i: nat)
    requires Proper(acts) && i < |acts| && acts[i].Sleep?
    ensures acts[i].secs >= 1
    ensures i > 0 && acts[i - 1].Renew? && acts[i - 1].renewed.Ok? ==>
      var lease := if LastDuration(acts[..i]).Some? then LastDuration(acts[..i]).value else 30;
      InInterval(acts[i].secs, LastDuration(acts[..i])) && acts[i].secs >= lease / 2 && (lease >= 3 ==> acts[i].secs < lease)
  {
    ActAllowed(acts, i);
    HistoryIsState(acts[..i]);
    HistoryIsRound(acts[..i]);
    assert i > 0 ==> acts[..i][|acts[..i]| - 1] == acts[i - 1];
    AllowedMeans(ObserveAll(Idle(), acts[..i]).value, acts[i]);
  }

  /** Each act was allowed by what the observer had seen before. */
  lemma ActAllowed(acts: seq<Act>, i: nat)
    requires Proper(acts) && i < |acts|
    ensures Proper(acts[..i]) && Observe(ObserveAll(Idle(), acts[..i]).value, acts[i]).Some?
  {
    PrefixProper(acts, i + 1);
    PrefixProper(acts, i);
    assert acts[..i + 1] == acts[..i] + [acts[i]];
    ObserveOneMore(Idle(), acts[..i], acts[i]);
  }

  lemma AllowedMeans(o: Observer, a: Act)
    requires Observe(o, a).Some?
    ensures a.Renew? ==> o.phase == Working && o.known.Some? && MayRenew(o.round, o.known.value, a.lease)
    ensures a.Lookup? ==> o.known.None?
    ensures a.PatchDetails? ==> o.known.Some? && o.round.current == Some(a.details) && o.known.value.published != Some(a.details)
    ensures a.Sleep? ==> a.secs >= 1
    ensures a.Sleep? && o.phase == Beaten ==> o.known.Some? && InInterval(a.secs, o.known.value.duration)
  {
  }

  // ---- The loop ----

  /** What the API and the node answer during one iteration; calls an iteration
      does not make leave their answer unused. */
  datatype Answers = Answers(
    client: bool,
    lookup: Reply<Option<Seen>>,
    fetch: Reply<Seen>,
    details: Option<string> -> Option<string>,    // by fallback home relay
    patch: Reply<()>,
    lease: Reply<Option<int>>,
    renew: Reply<()>,
    jitter: nat)

  /** Every call this iteration might make goes well; a details patch may still
      fail, short of a 401. */
  ghost predicate Healthy(a: Answers) {
    && a.client
    && a.lookup.Ok? && a.lookup.value.Some?
    && a.fetch.Ok? && a.fetch.value.lease.Some?
    && (forall relay :: a.details(relay).Some?)
    && a.patch != Fail(Unauthorized)
    && a.lease.Ok? && a.renew.Ok?
  }

  /** What an act reports is what was answered. */
  predicate Honest(a: Answers, act: Act) {
    match act
    case ClientFailed => !a.client
    case Lookup(found) => found == a.lookup
    case Fetch(_, got) => got == a.fetch
    case Details(relay, given) => given == a.details(relay)
    case PatchDetails(_, _, patched) => patched == a.patch
    case GetLease(_, duration) => duration == a.lease
    case Renew(_, renewed) => renewed == a.renew
    case _ => true
  }

  /** The iteration an act belongs to is the number of sleeps before it. */
  predicate HonestAll(acts: seq<Act>, answers: seq<Answers>) {
    acts == [] ||
    var init := acts[..|acts| - 1];
    HonestAll(init, answers) && Sleeps(init) < |answers| && Honest(answers[Sleeps(init)], acts[|acts| - 1])
  }

  lemma {:induction false} HonestExtends(acts: seq<Act>, answers: seq<Answers>, a: Answers)
    requires HonestAll(acts, answers)
    ensures HonestAll(acts, answers + [a])
  {
    if acts != [] {
      HonestExtends(acts[..|acts| - 1], answers, a);
    }
  }

  lemma {:induction false} HonestEach(acts: seq<Act>, answers: seq<Answers>, i: nat)
    requires HonestAll(acts, answers) && i < |acts|
    ensures Sleeps(acts[..i]) < |answers| && Honest(answers[Sleeps(acts[..i])], acts[i])
  {
    if i < |acts| - 1 {
      HonestEach(acts[..|acts| - 1], answers, i);
      assert acts[..|acts| - 1][..i] == acts[..i];
    }
  }

  datatype ConnectorCache = ConnectorCache(
    name: string, lease: Option<string>, duration: Option<int>, lastDetails: Option<string>, relay: Option<string>)

  function View(c: Option<ConnectorCache>): Option<Known> {
    if c.None? then None
    else Some(Known(c.value.name, c.value.lease, c.value.relay, c.value.duration, c.value.lastDetails))
  }

  function Sleeps(acts: seq<Act>): nat {
    if acts == [] then 0 else Sleeps(acts[..|acts| - 1]) + if acts[|acts| - 1].Sleep? then 1 else 0
  }

  class ProjectLoop {
    const backoff: Backoff
    var cache: Option<ConnectorCache>
    var acts: seq<Act>
    ghost var heard: seq<Answers>    // the answers of every iteration so far

    /** The trace so far is proper, and the observer that saw only the trace
        knows exactly what the cache and the backoff hold. */
    ghost predicate Valid(phase: Phase, round: Round)
      reads this, backoff
    {
      backoff.Valid() && ObserveAll(Idle(), acts) == Some(Observer(View(cache), backoff.taken, phase, round))
    }

    /** Every act so far reports what was answered; `open` while the last
        iteration has not slept yet. */
    ghost predicate Told(open: bool)
      reads this
    {
      HonestAll(acts, heard) && |heard| == Sleeps(acts) + if open then 1 else 0
    }

    constructor ()
      ensures Valid(Working, NewRound()) && Told(false) && acts == [] && heard == [] && fresh(backoff)
    {
      backoff := new Backoff();
      cache, acts, heard := None, [], [];
    }

    method Act(a: Act)
      requires Told(true) && Honest(heard[|heard| - 1], a)
      modifies `acts
      ensures acts == old(acts) + [a] && Told(!a.Sleep?)
      ensures ObserveAll(Idle(), acts) ==
        if ObserveAll(Idle(), old(acts)).Some? then Observe(ObserveAll(Idle(), old(acts)).value, a) else None
    {
      ObserveOneMore(Idle(), acts, a);
      acts := acts + [a];
      assert acts[..|acts| - 1] == old(acts);
    }

    /** The end of every iteration that did not renew. */
    method GiveUp(ghost round: Round)
      requires Valid(Failing, round) && Told(true)
      modifies `acts, backoff
      ensures Valid(Working, NewRound()) && Told(false)
      ensures acts[|acts| - 1].Sleep?
    {
      var wait := backoff.Next();
      Act(Sleep(wait));
    }

    method RefreshIf(e: Err, ghost round: Round)
      requires Valid(if e == Unauthorized then Owing else Failing, round) && Told(true)
      modifies `acts
      ensures Valid(Failing, round) && Told(true)
    {
      if e == Unauthorized {
        Act(RefreshAuth);
      }
    }

    /** Take up a connector if none is cached. */
    method Resolve(found: Reply<Option<Seen>>) returns (go: bool)
      requires Valid(Working, NewRound()) && Told(true) && found == heard[|heard| - 1].lookup
      modifies `cache, `acts, backoff
      ensures Valid(Working, NewRound()) && Told(go) && (go ==> cache.Some?)
      ensures !go ==> acts != [] && acts[|acts| - 1].Sleep?
      ensures go <==> old(cache).Some? || (found.Ok? && found.value.Some?)
    {
      if cache.Some? {
        return true;
      }
      Act(Lookup(found));
      go := false;
      match found
      case Ok(Some(s)) =>
        cache := Some(ConnectorCache(s.name, s.lease, None, None, s.relay));
        backoff.Reset();
        return true;
      case Ok(None) =>
        GiveUp(NewRound());
      case Fail(e) =>
        RefreshIf(e, NewRound());
        GiveUp(NewRound());
    }

    /** Learn the lease name of a connector cached without one. */
    method LearnLease(got: Reply<Seen>) returns (go: bool)
      requires Valid(Working, NewRound()) && cache.Some? && Told(true) && got == heard[|heard| - 1].fetch
      modifies `cache, `acts, backoff
      ensures Valid(Working, NewRound()) && Told(go) && (go ==> cache.Some? && cache.value.lease.Some?)
      ensures !go ==> acts != [] && acts[|acts| - 1].Sleep?
      ensures go <==> old(cache).value.lease.Some? || (got.Ok? && got.value.lease.Some?)
    {
      if cache.value.lease.Some? {
        return true;
      }
      Act(Fetch(cache.value.name, got));
      go := false;
      match got
      case Ok(s) =>
        cache := Some(cache.value.(lease := s.lease));
        if s.lease.Some? {
          cache := Some(cache.value.(relay := s.relay));
          return true;
        }
        GiveUp(NewRound());
      case Fail(e) =>
        cache := None;
        RefreshIf(e, NewRound());
        GiveUp(NewRound());
    }

    /** Publish the connection details unless they were published already. */
    method Publish(details: Option<string>, patched: Reply<()>) returns (go: bool, ghost round: Round)
      requires Valid(Working, NewRound()) && cache.Some? && cache.value.lease.Some?
      requires Told(true) && details == heard[|heard| - 1].details(cache.value.relay) && patched == heard[|heard| - 1].patch
      modifies `cache, `acts, backoff
      ensures Valid(Working, if go then round else NewRound()) && Told(go)
      ensures go ==> cache.Some? && cache.value.lease.Some? && round == Round(details, round.refused, false)
      ensures go ==> details.Some? && (cache.value.lastDetails == details || round.refused)
      ensures !go ==> acts != [] && acts[|acts| - 1].Sleep?
      ensures details.Some? && patched != Fail(Unauthorized) ==> go
    {
      Act(Details(cache.value.relay, details));
      round := Round(details, false, false);
      if details.None? {
        GiveUp(NewRound());
        return false, NewRound();
      }
      if cache.value.lastDetails == details {
        return true, round;
      }
      Act(PatchDetails(cache.value.name, details.value, patched));
      go := true;
      match patched
      case Ok(_) => cache := Some(cache.value.(lastDetails := details));
      case Fail(e) =>
        if e == Unauthorized {
          RefreshIf(e, round);
          GiveUp(round);
          go := false;
        } else {
          round := Round(details, true, false);
        }
    }

    /** After a failed lease call: a 404 drops the cache. */
    method DropOn404(e: Err, ghost round: Round)
      requires Told(true) && backoff.Valid()
      requires ObserveAll(Idle(), acts) == Some(Observer(if e == NotFound then None else View(cache), backoff.taken,
                                                         if e == Unauthorized then Owing else Failing, round))
      modifies `cache, `acts, backoff
      ensures Valid(Working, NewRound()) && Told(false) && acts[|acts| - 1].Sleep?
    {
      if e == NotFound {
        cache := None;
      }
      RefreshIf(e, round);
      GiveUp(round);
    }

    /** Ask the lease for its duration until it has named one. */
    method LearnDuration(duration: Reply<Option<int>>, ghost before: Round) returns (go: bool, ghost round: Round)
      requires Valid(Working, before) && cache.Some? && cache.value.lease.Some?
      requires Told(true) && duration == heard[|heard| - 1].lease
      modifies `cache, `acts, backoff
      ensures Valid(Working, if go then round else NewRound()) && Told(go)
      ensures go ==> cache.Some? && cache.value.lease.Some? && cache.value.lastDetails == old(cache).value.lastDetails
      ensures go ==> round == before.(asked := round.asked) && (cache.value.duration.Some? || round.asked)
      ensures !go ==> acts != [] && acts[|acts| - 1].Sleep?
      ensures duration.Ok? ==> go
    {
      round := before;
      if cache.value.duration.Some? {
        return true, round;
      }
      Act(GetLease(cache.value.lease.value, duration));
      match duration
      case Ok(d) =>
        cache := Some(cache.value.(duration := d));
        round := before.(asked := true);
        go := true;
      case Fail(e) =>
        DropOn404(e, before);
        go := false;
    }

    /** Renew the lease, then sleep. */
    method RenewLease(renewed: Reply<()>, jitter: nat, ghost round: Round)
      requires Valid(Working, round) && cache.Some? && cache.value.lease.Some?
      requires MayRenew(round, View(cache).value, cache.value.lease.value)
      requires Told(true) && renewed == heard[|heard| - 1].renew
      modifies `cache, `acts, backoff
      ensures Valid(Working, NewRound()) && Told(false) && acts[|acts| - 1].Sleep?
      ensures renewed.Ok? ==> |acts| >= 2 && acts[|acts| - 2].Renew? && cache == old(cache)
    {
      Act(Renew(cache.value.lease.value, renewed));
      match renewed
      case Ok(_) =>
        var lease := LeaseOr(cache.value.duration);
        var wait := RenewalInterval(lease, jitter % (JitterMax(lease) + 1));
        DrawnInInterval(cache.value.duration, jitter);
        backoff.Reset();
        Act(Sleep(wait));
      case Fail(e) =>
        DropOn404(e, round);
    }

    /** One iteration: whatever it met, it ends with its one sleep; when nothing
        failed, the lease was renewed just before. */
    method Beat(a: Answers)
      requires Valid(Working, NewRound()) && Told(false)
      modifies this, backoff
      ensures Valid(Working, NewRound()) && Told(false) && heard == old(heard) + [a]
      ensures acts != [] && acts[|acts| - 1].Sleep?
      ensures Healthy(a) ==> |acts| >= 2 && acts[|acts| - 2].Renew? && cache.Some?
    {
      HonestExtends(acts, heard, a);
      heard := heard + [a];
      if !a.client {
        Act(ClientFailed);
        GiveUp(NewRound());
        return;
      }
      var go := Resolve(a.lookup);
      if go {
        go := LearnLease(a.fetch);
      }
      if go {
        Conclude(a);
      }
    }

    /** The second half of an iteration, with a lease to renew. */
    method Conclude(a: Answers)
      requires Valid(Working, NewRound()) && cache.Some? && cache.value.lease.Some? && Told(true) && a == heard[|heard| - 1]
      modifies `cache, `acts, backoff
      ensures Valid(Working, NewRound()) && Told(false) && acts[|acts| - 1].Sleep?
      ensures Healthy(a) ==> |acts| >= 2 && acts[|acts| - 2].Renew? && cache.Some?
    {
      ghost var round;
      var go;
      go, round := Publish(a.details(cache.value.relay), a.patch);
      if go {
        go, round := LearnDuration(a.lease, round);
      }
      if go {
        RenewLease(a.renew, a.jitter, round);
      }
    }
  }

  /** `run_project` until cancelled after `|answers|` iterations: for every
      sequence of API outcomes the trace is proper, each iteration slept exactly
      once, at its end, and every act reports what that iteration was answered. */
  method RunProject(answers: seq<Answers>) returns (acts: seq<Act>)
    ensures Proper(acts) && Sleeps(acts) == |answers|
    ensures acts != [] ==> acts[|acts| - 1].Sleep?
    ensures forall i | 0 <= i < |acts| :: Sleeps(acts[..i]) < |answers| && Honest(answers[Sleeps(acts[..i])], acts[i])
  {
    var loop := new ProjectLoop();
    for i := 0 to |answers|
      invariant loop.Valid(Working, NewRound()) && loop.Told(false) && loop.heard == answers[..i]
      invariant fresh(loop) && fresh(loop.backoff)
      invariant loop.acts != [] ==> loop.acts[|loop.acts| - 1].Sleep?
    {
      loop.Beat(answers[i]);
    }
    assert answers[..|answers|] == answers;
    acts := loop.acts;
    forall i | 0 <= i < |acts| ensures Sleeps(acts[..i]) < |answers| && Honest(answers[Sleeps(acts[..i])], acts[i]) {
      HonestEach(acts, answers, i);
    }
  }
}
