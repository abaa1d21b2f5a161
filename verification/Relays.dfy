/**
  Choosing relays at startup: deduplicate the list, probe every relay at once,
  and keep the best ones, whatever order the probes complete in.
 */
module Relays {
  import opened Text

  /** How a probe task ended; a join error loses the relay's name too. */
  datatype Outcome = Answered(latency: nat) | Failed | JoinError

  // ---- The order ----

  /** `str::cmp`, as at most. */
  predicate StrLe(a: string, b: string) {
    a == [] || (b != [] && (a[0] < b[0] || (a[0] == b[0] && StrLe(a[1..], b[1..]))))
  }

  lemma {:induction false} StrLeTotal(a: string, b: string)
    ensures StrLe(a, b) || StrLe(b, a)
    ensures StrLe(a, b) && StrLe(b, a) ==> a == b
  {
    if a != [] && b != [] && a[0] == b[0] {
      StrLeTotal(a[1..], b[1..]);
      assert a == [a[0]] + a[1..] && b == [b[0]] + b[1..];
    }
  }

  lemma {:induction false} StrLeTransitive(a: string, b: string, c: string)
    requires StrLe(a, b) && StrLe(b, c)
    ensures StrLe(a, c)
  {
    if a != [] && b != [] && c != [] && a[0] == b[0] == c[0] {
      StrLeTransitive(a[1..], b[1..], c[1..]);
    }
  }

  function Latency(o: Outcome): nat {
    if o.Answered? then o.latency else 0
  }

  /** By latency, then by url; relays that failed go by url alone. */
  predicate Le(outcome: string -> Outcome, a: string, b: string) {
    var x, y := Latency(outcome(a)), Latency(outcome(b));
    x < y || (x == y && StrLe(a, b))
  }

  lemma LeTotal(outcome: string -> Outcome, a: string, b: string)
    ensures Le(outcome, a, b) || Le(outcome, b, a)
    ensures Le(outcome, a, b) && Le(outcome, b, a) ==> a == b
  {
    StrLeTotal(a, b);
  }

  lemma LeTransitive(outcome: string -> Outcome, a: string, b: string, c: string)
    requires Le(outcome, a, b) && Le(outcome, b, c)
    ensures Le(outcome, a, c)
  {
    if StrLe(a, b) && StrLe(b, c) {
      StrLeTransitive(a, b, c);
    }
  }

  predicate Sorted(outcome: string -> Outcome, s: seq<string>) {
    forall i, j | 0 <= i < j < |s| :: Le(outcome, s[i], s[j])
  }

  function Insert(outcome: string -> Outcome, x: string, s: seq<string>): seq<string> {
    if s == [] || Le(outcome, x, s[0]) then [x] + s else [s[0]] + Insert(outcome, x, s[1..])
  }

  /** `sort_by`. */
  function Sort(outcome: string -> Outcome, s: seq<string>): seq<string> {
    if s == [] then [] else Insert(outcome, s[0], Sort(outcome, s[1..]))
  }

  lemma {:induction false} InsertCounts(outcome: string -> Outcome, x: string, s: seq<string>)
    ensures multiset(Insert(outcome, x, s)) == multiset{x} + multiset(s)
  {
    if s != [] && !Le(outcome, x, s[0]) {
      InsertCounts(outcome, x, s[1..]);
      assert s == [s[0]] + s[1..];
    }
  }

  lemma ConsSorted(outcome: string -> Outcome, x: string, s: seq<string>)
    requires Sorted(outcome, s) && forall y | y in s :: Le(outcome, x, y)
    ensures Sorted(outcome, [x] + s)
  {
  }

  lemma {:induction false} InsertSorts(outcome: string -> Outcome, x: string, s: seq<string>)
    requires Sorted(outcome, s)
    ensures Sorted(outcome, Insert(outcome, x, s))
  {
    if s != [] {
      LeTotal(outcome, x, s[0]);
      if Le(outcome, x, s[0]) {
        forall y | y in s ensures Le(outcome, x, y) {
          HeadIsLeast(outcome, s, y);
          LeTransitive(outcome, x, s[0], y);
        }
        ConsSorted(outcome, x, s);
      } else {
        InsertSorts(outcome, x, s[1..]);
        InsertCounts(outcome, x, s[1..]);
        var t := Insert(outcome, x, s[1..]);
        forall y | y in t ensures Le(outcome, s[0], y) {
          assert y in multiset(t);
          assert y == x || y in s[1..];
        }
        ConsSorted(outcome, s[0], t);
      }
    }
  }

  lemma {:induction false} SortSorts(outcome: string -> Outcome, s: seq<string>)
    ensures Sorted(outcome, Sort(outcome, s))
    ensures multiset(Sort(outcome, s)) == multiset(s)
  {
    if s != [] {
      SortSorts(outcome, s[1..]);
      InsertSorts(outcome, s[0], Sort(outcome, s[1..]));
      InsertCounts(outcome, s[0], Sort(outcome, s[1..]));
      assert s == [s[0]] + s[1..];
    }
  }

  lemma HeadIsLeast(outcome: string -> Outcome, s: seq<string>, x: string)
    requires Sorted(outcome, s) && x in s
    ensures Le(outcome, s[0], x)
  {
    LeTotal(outcome, s[0], s[0]);
  }

  lemma SameHead(outcome: string -> Outcome, s: seq<string>, t: seq<string>)
    requires Sorted(outcome, s) && Sorted(outcome, t) && multiset(s) == multiset(t) && s != [] && t != []
    ensures s[0] == t[0]
  {
    assert s[0] in multiset(t) && t[0] in multiset(s);
    HeadIsLeast(outcome, s, t[0]);
    HeadIsLeast(outcome, t, s[0]);
    LeTotal(outcome, s[0], t[0]);
  }

  lemma TailMultiset(s: seq<string>)
    requires s != []
    ensures multiset(s[1..]) == multiset(s) - multiset{s[0]}
  {
    assert s == [s[0]] + s[1..];
  }

  /** A multiset has one sorted listing. */
  lemma {:induction false} SortedUnique(outcome: string -> Outcome, s: seq<string>, t: seq<string>)
    requires Sorted(outcome, s) && Sorted(outcome, t) && multiset(s) == multiset(t)
    ensures s == t
  {
    assert |s| == |multiset(s)| == |multiset(t)| == |t|;
    if s != [] {
      SameHead(outcome, s, t);
      TailMultiset(s);
      TailMultiset(t);
      SortedUnique(outcome, s[1..], t[1..]);
      assert s == [s[0]] + s[1..] && t == [t[0]] + t[1..];
    }
  }

  // ---- The specification ----

  function Filter(s: seq<string>, p: string -> bool): seq<string> {
    if s == [] then []
    else Filter(s[..|s| - 1], p) + if p(s[|s| - 1]) then [s[|s| - 1]] else []
  }

  lemma {:induction false} FilterCounts(s: seq<string>, p: string -> bool, x: string)
    ensures multiset(Filter(s, p))[x] == if p(x) then multiset(s)[x] else 0
  {
    if s != [] {
      FilterCounts(s[..|s| - 1], p, x);
      assert s == s[..|s| - 1] + [s[|s| - 1]];
    }
  }

  function IsAnswered(outcome: string -> Outcome): string -> bool {
    r => outcome(r).Answered?
  }

  function IsFailed(outcome: string -> Outcome): string -> bool {
    r => outcome(r).Failed?
  }

  function IsLost(outcome: string -> Outcome): string -> bool {
    r => outcome(r).JoinError?
  }

  function NotIn(s: seq<string>): string -> bool {
    r => r !in s
  }

  /** All relays, best first: those that answered by latency and url, those that
      failed by url, those whose task was lost in list order. Completion order
      plays no part. */
  function Ranked(relays: seq<string>, outcome: string -> Outcome): seq<string> {
    Sort(outcome, Filter(relays, IsAnswered(outcome))) + Sort(outcome, Filter(relays, IsFailed(outcome)))
    + Filter(relays, IsLost(outcome))
  }

  lemma NoDupByCount(s: seq<string>)
    requires forall x :: multiset(s)[x] <= 1
    ensures NoDup(s)
  {
    forall i, j | 0 <= i < j < |s| ensures s[i] != s[j] {
      assert s == s[..j] + [s[j]] + s[j + 1..];
      assert multiset(s)[s[j]] >= multiset(s[..j])[s[j]] + 1;
      assert s[j] !in s[..j];
      assert s[i] in s[..j];
    }
  }

  lemma {:induction false} CountByNoDup(s: seq<string>, x: string)
    requires NoDup(s)
    ensures multiset(s)[x] == if x in s then 1 else 0
  {
    if s != [] {
      assert s == s[..|s| - 1] + [s[|s| - 1]];
      CountByNoDup(s[..|s| - 1], x);
    }
  }

  /** Ranking only reorders. */
  lemma RankedPermutes(relays: seq<string>, outcome: string -> Outcome)
    ensures multiset(Ranked(relays, outcome)) == multiset(relays)
    ensures |Ranked(relays, outcome)| == |relays|
  {
    SortSorts(outcome, Filter(relays, IsAnswered(outcome)));
    SortSorts(outcome, Filter(relays, IsFailed(outcome)));
    forall x ensures multiset(Ranked(relays, outcome))[x] == multiset(relays)[x] {
      FilterCounts(relays, IsAnswered(outcome), x);
      FilterCounts(relays, IsFailed(outcome), x);
      FilterCounts(relays, IsLost(outcome), x);
    }
    assert |Ranked(relays, outcome)| == |multiset(Ranked(relays, outcome))|;
  }

  function Class(o: Outcome): nat {
    match o case Answered(_) => 0 case Failed => 1 case JoinError => 2
  }

  /** Strictly worse relays come later; within a class, in order. */
  lemma RankedOrders(relays: seq<string>, outcome: string -> Outcome, i: nat, j: nat)
    requires i < j < |Ranked(relays, outcome)|
    ensures var a, b := Ranked(relays, outcome)[i], Ranked(relays, outcome)[j];
      && Class(outcome(a)) <= Class(outcome(b))
      && (outcome(a).Answered? && outcome(b).Answered? ==> Le(outcome, a, b))
      && (outcome(a).Failed? && outcome(b).Failed? ==> Le(outcome, a, b))
  {
    SortSorts(outcome, Filter(relays, IsAnswered(outcome)));
    SortSorts(outcome, Filter(relays, IsFailed(outcome)));
    RankedClass(relays, outcome, i);
    RankedClass(relays, outcome, j);
  }

  lemma RankedClass(relays: seq<string>, outcome: string -> Outcome, i: nat)
    requires i < |Ranked(relays, outcome)|
    ensures var answered, failed := |Filter(relays, IsAnswered(outcome))|, |Filter(relays, IsFailed(outcome))|;
      && |Sort(outcome, Filter(relays, IsAnswered(outcome)))| == answered
      && |Sort(outcome, Filter(relays, IsFailed(outcome)))| == failed
      && Class(outcome(Ranked(relays, outcome)[i])) == if i < answered then 0 else if i < answered + failed then 1 else 2
  {
    var good, bad, lost := Filter(relays, IsAnswered(outcome)), Filter(relays, IsFailed(outcome)), Filter(relays, IsLost(outcome));
    SortSorts(outcome, good);
    SortSorts(outcome, bad);
    var x := Ranked(relays, outcome)[i];
    assert |good| == |multiset(good)| == |Sort(outcome, good)|;
    assert |bad| == |multiset(bad)| == |Sort(outcome, bad)|;
    if i < |good| {
      assert x == Sort(outcome, good)[i] && x in multiset(Sort(outcome, good));
      FilterCounts(relays, IsAnswered(outcome), x);
    } else if i < |good| + |bad| {
      assert x == Sort(outcome, bad)[i - |good|] && x in multiset(Sort(outcome, bad));
      FilterCounts(relays, IsFailed(outcome), x);
    } else {
      assert x == lost[i - |good| - |bad|] && x in multiset(lost);
      FilterCounts(relays, IsLost(outcome), x);
    }
  }

  lemma BestFit(relays: seq<string>, max: nat, outcome: string -> Outcome)
    requires NoDup(relays)
    ensures var best := Take(Ranked(relays, outcome), max);
      && |best| == (if |relays| <= max then |relays| else max) && NoDup(best) && forall r | r in best :: r in relays
  {
    RankedPermutes(relays, outcome);
    RankedNoDup(relays, outcome);
    TakeNoDup(Ranked(relays, outcome), max);
    forall r | r in Take(Ranked(relays, outcome), max) ensures r in relays {
      RankedFromRelays(relays, outcome, r);
    }
  }

  /** No relay left out precedes a chosen one. */
  predicate Ahead(outcome: string -> Outcome, r: string, s: string) {
    Class(outcome(r)) <= Class(outcome(s)) && (outcome(s).Answered? ==> outcome(r).Answered? && Le(outcome, r, s))
  }

  /** The best `max` relays have all the properties promised: exactly as many as
      there can be, distinct, from the list; no answering relay was passed over
      for a slower one, none that failed is in unless every answering one is,
      and none that was lost is in unless all others are. */
  lemma BestAreBest(relays: seq<string>, max: nat, outcome: string -> Outcome)
    requires NoDup(relays)
    ensures var best := Take(Ranked(relays, outcome), max);
      && |best| == (if |relays| <= max then |relays| else max) && NoDup(best)
      && (forall r | r in best :: r in relays)
      && (forall r, s | r in best && s in relays && s !in best :: Ahead(outcome, r, s))
  {
    BestFit(relays, max, outcome);
    forall r, s | r in Take(Ranked(relays, outcome), max) && s in relays && s !in Take(Ranked(relays, outcome), max)
      ensures Ahead(outcome, r, s) {
      PassedOver(relays, max, outcome, r, s);
    }
  }

  /** The two urls agree up to `k`, where the first has the smaller character. */
  predicate DecidedAt(a: string, b: string, k: nat) {
    k < |a| && k < |b| && a[..k] == b[..k] && a[k] < b[k]
  }

  /** Byte-wise order: one url begins the other, or the first difference decides. */
  ghost predicate Precedes(a: string, b: string) {
    a <= b || exists k: nat :: DecidedAt(a, b, k)
  }

  lemma DecidedShift(a: string, b: string, k: nat)
    requires a != [] && b != [] && a[0] == b[0]
    ensures DecidedAt(a, b, k + 1) <==> DecidedAt(a[1..], b[1..], k)
  {
    if k + 1 < |a| && k + 1 < |b| {
      assert a[..k + 1] == [a[0]] + a[1..][..k] && b[..k + 1] == [b[0]] + b[1..][..k];
      assert a[1..][..k] == a[..k + 1][1..] && b[1..][..k] == b[..k + 1][1..];
    }
  }

  lemma {:induction false} StrLeDecides(a: string, b: string)
    requires StrLe(a, b)
    ensures Precedes(a, b)
  {
    if a != [] {
      if a[0] < b[0] {
        assert DecidedAt(a, b, 0);
      } else {
        StrLeDecides(a[1..], b[1..]);
        if a[1..] <= b[1..] {
          assert a == [a[0]] + a[1..] && b == [b[0]] + b[1..];
        } else {
          var k: nat :| DecidedAt(a[1..], b[1..], k);
          DecidedShift(a, b, k);
        }
      }
    }
  }

  lemma {:induction false} DecidedIsLe(a: string, b: string, k: nat)
    requires DecidedAt(a, b, k)
    ensures StrLe(a, b)
  {
    if k > 0 {
      assert a[..k][0] == a[0] && b[..k][0] == b[0];
      DecidedShift(a, b, k - 1);
      DecidedIsLe(a[1..], b[1..], k - 1);
    }
  }

  lemma {:induction false} PrefixIsLe(a: string, b: string)
    requires a <= b
    ensures StrLe(a, b)
  {
    if a != [] {
      PrefixIsLe(a[1..], b[1..]);
    }
  }

  lemma StrLeMeans(a: string, b: string)
    ensures StrLe(a, b) <==> Precedes(a, b)
  {
    if StrLe(a, b) {
      StrLeDecides(a, b);
    }
    if a <= b {
      PrefixIsLe(a, b);
    }
    if k: nat :| DecidedAt(a, b, k) {
      DecidedIsLe(a, b, k);
    }
  }

  /** Spelled out for answering relays: one that was left out was no faster than
      any chosen one, and its url comes later when it was as fast. */
  lemma FasterIsChosen(relays: seq<string>, max: nat, outcome: string -> Outcome, r: string, s: string)
    requires NoDup(relays)
    requires var best := Take(Ranked(relays, outcome), max); r in best && s in relays && s !in best && outcome(s).Answered?
    ensures outcome(r).Answered? && outcome(r).latency <= outcome(s).latency
    ensures outcome(r).latency == outcome(s).latency ==> Precedes(r, s)
  {
    PassedOver(relays, max, outcome, r, s);
    StrLeMeans(r, s);
  }

  lemma TakeNoDup(s: seq<string>, n: nat)
    requires NoDup(s)
    ensures NoDup(Take(s, n)) && |Take(s, n)| == (if |s| <= n then |s| else n)
  {
  }

  lemma RankedFromRelays(relays: seq<string>, outcome: string -> Outcome, r: string)
    requires r in Ranked(relays, outcome)
    ensures r in relays
  {
    RankedPermutes(relays, outcome);
    assert r in multiset(Ranked(relays, outcome));
  }

  lemma RankedNoDup(relays: seq<string>, outcome: string -> Outcome)
    requires NoDup(relays)
    ensures NoDup(Ranked(relays, outcome))
  {
    RankedPermutes(relays, outcome);
    forall x ensures multiset(Ranked(relays, outcome))[x] <= 1 { CountByNoDup(relays, x); }
    NoDupByCount(Ranked(relays, outcome));
  }

  lemma PassedOver(relays: seq<string>, max: nat, outcome: string -> Outcome, r: string, s: string)
    requires var best := Take(Ranked(relays, outcome), max); r in best && s in relays && s !in best
    ensures Ahead(outcome, r, s)
  {
    var ranked := Ranked(relays, outcome);
    RankedPermutes(relays, outcome);
    assert s in multiset(ranked);
    var i :| 0 <= i < |Take(ranked, max)| && Take(ranked, max)[i] == r;
    var j :| 0 <= j < |ranked| && ranked[j] == s;
    assert i < max && ranked[i] == r;
    assert j >= max;
    RankedOrders(relays, outcome, i, j);
  }

  // ---- The code ----

  /** First place of `x` in `s`. */
  function FirstIndex(s: seq<string>, x: string): nat
    requires x in s
  {
    if s[0] == x then 0 else 1 + FirstIndex(s[1..], x)
  }

  lemma {:induction false} FirstIndexFound(s: seq<string>, x: string)
    requires x in s
    ensures FirstIndex(s, x) < |s| && s[FirstIndex(s, x)] == x
    ensures forall i | 0 <= i < FirstIndex(s, x) :: s[i] != x
  {
    if s[0] != x {
      FirstIndexFound(s[1..], x);
      forall i | 0 <= i < FirstIndex(s, x) ensures s[i] != x {
        assert i > 0 ==> s[i] == s[1..][i - 1];
      }
    }
  }

  lemma FirstIndexIs(s: seq<string>, i: nat)
    requires i < |s| && s[i] !in s[..i]
    ensures FirstIndex(s, s[i]) == i
  {
    FirstIndexFound(s, s[i]);
    assert forall k | 0 <= k < i :: s[..i][k] == s[k];
  }

  /** The deduplication in `parse_relay_urls`: each relay once, in the order of
      first appearance. */
  method Dedup(relays: seq<string>) returns (deduped: seq<string>)
    ensures NoDup(deduped)
    ensures forall x :: x in deduped <==> x in relays
    ensures forall i, j | 0 <= i < j < |deduped| :: FirstIndex(relays, deduped[i]) < FirstIndex(relays, deduped[j])
  {
    deduped := [];
    for i := 0 to |relays|
      invariant NoDup(deduped)
      invariant forall x :: x in deduped <==> x in relays[..i]
      invariant forall j | 0 <= j < |deduped| :: deduped[j] in relays && FirstIndex(relays, deduped[j]) < i
      invariant forall j, k | 0 <= j < k < |deduped| :: FirstIndex(relays, deduped[j]) < FirstIndex(relays, deduped[k])
    {
      assert relays[..i + 1] == relays[..i] + [relays[i]];
      if relays[i] !in deduped {
        FirstIndexIs(relays, i);
        deduped := deduped + [relays[i]];
      }
    }
    assert relays[..|relays|] == relays;
  }

  /** Top up `selected` from `candidates`, skipping those already in. */
  method Fill(selected: seq<string>, candidates: seq<string>, max: nat) returns (filled: seq<string>)
    requires NoDup(candidates) && |selected| <= max
    ensures filled == Take(selected + Filter(candidates, NotIn(selected)), max)
  {
    filled := selected;
    ghost var p := NotIn(selected);
    var i := 0;
    while i < |candidates| && |filled| != max
      invariant 0 <= i <= |candidates| && |filled| <= max
      invariant filled == selected + Filter(candidates[..i], p)
    {
      FilterStep(candidates, i, p);
      if candidates[i] !in filled {
        filled := filled + [candidates[i]];
      }
      i := i + 1;
    }
    FilterPrefix(candidates, i, p);
    assert i == |candidates| ==> candidates[..i] == candidates;
  }

  lemma FilterStep(s: seq<string>, i: nat, p: string -> bool)
    requires NoDup(s) && i < |s|
    ensures Filter(s[..i + 1], p) == Filter(s[..i], p) + if p(s[i]) then [s[i]] else []
    ensures s[i] !in Filter(s[..i], p)
  {
    assert s[..i + 1][..i] == s[..i];
    FilterCounts(s[..i], p, s[i]);
    assert s[i] !in s[..i];
    assert multiset(Filter(s[..i], p))[s[i]] == 0;
  }

  lemma {:induction false} FilterPrefix(s: seq<string>, i: nat, p: string -> bool)
    requires i <= |s|
    ensures Filter(s[..i], p) <= Filter(s, p)
  {
    if i < |s| {
      FilterPrefix(s[..|s| - 1], i, p);
      assert s[..|s| - 1][..i] == s[..i];
    } else {
      assert s[..i] == s;
    }
  }

  lemma SameFiltered(s: seq<string>, t: seq<string>, p: string -> bool)
    requires multiset(s) == multiset(t)
    ensures multiset(Filter(s, p)) == multiset(Filter(t, p))
  {
    forall x ensures multiset(Filter(s, p))[x] == multiset(Filter(t, p))[x] {
      FilterCounts(s, p, x);
      FilterCounts(t, p, x);
    }
  }

  lemma SameSorted(outcome: string -> Outcome, s: seq<string>, t: seq<string>)
    requires multiset(s) == multiset(t)
    ensures Sort(outcome, s) == Sort(outcome, t)
  {
    SortSorts(outcome, s);
    SortSorts(outcome, t);
    SortedUnique(outcome, Sort(outcome, s), Sort(outcome, t));
  }

  /** Collect the probes as they complete. */
  method Collect(arrival: seq<string>, outcome: string -> Outcome) returns (successful: seq<string>, failed: seq<string>)
    ensures successful == Filter(arrival, IsAnswered(outcome))
    ensures failed == Filter(arrival, IsFailed(outcome))
  {
    successful, failed := [], [];
    for i := 0 to |arrival|
      invariant successful == Filter(arrival[..i], IsAnswered(outcome))
      invariant failed == Filter(arrival[..i], IsFailed(outcome))
    {
      assert arrival[..i + 1][..i] == arrival[..i];
      match outcome(arrival[i])
      case Answered(_) => successful := successful + [arrival[i]];
      case Failed => failed := failed + [arrival[i]];
      case JoinError =>
    }
    assert arrival[..|arrival|] == arrival;
  }

  /** `select_best_relays_for_startup`: for every completion order of the probe
      tasks the answer is the same function of list and outcomes. */
  method Select(relays: seq<string>, max: nat, client: bool, arrival: seq<string>, outcome: string -> Outcome)
    returns (selected: seq<string>)
    requires NoDup(relays) && multiset(arrival) == multiset(relays)
    ensures selected == if |relays| <= max || !client then Take(relays, max) else Take(Ranked(relays, outcome), max)
  {
    if |relays| <= max {
      return relays;
    }
    if !client {
      return relays[..max];
    }
    var successful, failed := Collect(arrival, outcome);
    SameFiltered(arrival, relays, IsAnswered(outcome));
    SameFiltered(arrival, relays, IsFailed(outcome));
    SameSorted(outcome, successful, Filter(relays, IsAnswered(outcome)));
    SameSorted(outcome, failed, Filter(relays, IsFailed(outcome)));
    selected := Choose(relays, max, Sort(outcome, successful), Sort(outcome, failed), outcome);
  }

  /** Pick from the sorted lists, then from the relays themselves. */
  method Choose(relays: seq<string>, max: nat, answering: seq<string>, failing: seq<string>, ghost outcome: string -> Outcome)
    returns (selected: seq<string>)
    requires NoDup(relays)
    requires answering == Sort(outcome, Filter(relays, IsAnswered(outcome)))
    requires failing == Sort(outcome, Filter(relays, IsFailed(outcome)))
    ensures selected == Take(Ranked(relays, outcome), max)
  {
    ghost var lost := Filter(relays, IsLost(outcome));
    RankedNoDup(relays, outcome);
    PartsDisjoint(answering, failing, lost);
    selected := Take(answering, max);
    if |selected| < max {
      selected := Fill(answering, failing, max);
      FilterAll(failing, NotIn(answering));
    }
    assert selected == Take(answering + failing, max);
    if |selected| < max {
      selected := Fill(selected, relays, max);
      LostRemain(relays, outcome, answering + failing);
    }
    assert answering + failing + lost == Ranked(relays, outcome);
  }

  lemma PartsDisjoint(a: seq<string>, b: seq<string>, c: seq<string>)
    requires NoDup(a + b + c)
    ensures NoDup(b) && forall i | 0 <= i < |b| :: b[i] !in a
  {
    var s := a + b + c;
    forall i, j | 0 <= i < j < |b| ensures b[i] != b[j] {
      assert s[|a| + i] == b[i] && s[|a| + j] == b[j];
    }
    forall i, j | 0 <= i < |b| && 0 <= j < |a| ensures b[i] != a[j] {
      assert s[|a| + i] == b[i] && s[j] == a[j];
    }
  }

  lemma {:induction false} FilterAll(s: seq<string>, p: string -> bool)
    requires forall i | 0 <= i < |s| :: p(s[i])
    ensures Filter(s, p) == s
  {
    if s != [] {
      FilterAll(s[..|s| - 1], p);
    }
  }

  lemma {:induction false} FilterSame(s: seq<string>, p: string -> bool, q: string -> bool)
    requires forall i | 0 <= i < |s| :: p(s[i]) == q(s[i])
    ensures Filter(s, p) == Filter(s, q)
  {
    if s != [] {
      FilterSame(s[..|s| - 1], p, q);
    }
  }

  /** What neither answered nor failed is what was lost. */
  lemma LostRemain(relays: seq<string>, outcome: string -> Outcome, all: seq<string>)
    requires all == Sort(outcome, Filter(relays, IsAnswered(outcome))) + Sort(outcome, Filter(relays, IsFailed(outcome)))
    ensures Filter(relays, NotIn(all)) == Filter(relays, IsLost(outcome))
  {
    SortSorts(outcome, Filter(relays, IsAnswered(outcome)));
    SortSorts(outcome, Filter(relays, IsFailed(outcome)));
    forall i | 0 <= i < |relays| ensures relays[i] !in all <==> outcome(relays[i]).JoinError? {
      var x := relays[i];
      assert x in multiset(relays);
      assert x in all <==> x in multiset(all);
      FilterCounts(relays, IsAnswered(outcome), x);
      FilterCounts(relays, IsFailed(outcome), x);
    }
    FilterSame(relays, NotIn(all), IsLost(outcome));
  }
}
