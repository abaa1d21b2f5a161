/**
  The inspector's capture of proxied traffic: a tee that copies a bounded
  prefix of each body, and a bounded list of recent exchanges.
 */
module Inspector {
  import opened Text

  const CAPTURE_CAP_BYTES := 65536
  const MAX_EXCHANGES_PER_TUNNEL := 50

  datatype Frame = Data(bytes: seq<byte>) | Trailers

  /** What polling a body yields. */
  datatype Polled = NotReady | Next(frame: Frame) | EndOfStream | BodyError

  function BytesOf(p: Polled): seq<byte> {
    if p.Next? && p.frame.Data? then p.frame.bytes else []
  }

  /** All data that passed, in order. */
  function Body(polls: seq<Polled>): seq<byte> {
    if polls == [] then [] else Body(polls[..|polls| - 1]) + BytesOf(polls[|polls| - 1])
  }

  predicate Finished(polls: seq<Polled>) {
    exists i | 0 <= i < |polls| :: polls[i].EndOfStream? || polls[i].BodyError?
  }

  class CaptureSink {
    var buf: seq<byte>
    var truncated: bool
    ghost var total: seq<byte>    // everything pushed so far

    /** The buffer is the first 64 KiB of the total, and `truncated` says
        whether there was more. */
    ghost predicate Valid()
      reads this
    {
      buf == Take(total, CAPTURE_CAP_BYTES) && (truncated <==> |total| > CAPTURE_CAP_BYTES)
    }

    constructor ()
      ensures Valid() && total == []
    {
      buf, truncated, total := [], false, [];
    }

    method Push(data: seq<byte>)
      requires Valid()
      modifies this
      ensures Valid() && total == old(total) + data
    {
      total := total + data;
      if truncated {
        return;
      }
      var remaining := if |buf| <= CAPTURE_CAP_BYTES then CAPTURE_CAP_BYTES - |buf| else 0;
      var take := if remaining < |data| then remaining else |data|;
      buf := buf + data[..take];
      if |data| > take {
        truncated := true;
      }
    }
  }

  class TeeBody {
    const sink: CaptureSink
    var onDone: bool              // the one-shot sender is still here
    var signals: nat              // completions sent
    ghost const listened: bool    // there was a sender to begin with
    ghost var polls: seq<Polled>

    ghost predicate Valid()
      reads this, sink
    {
      && sink.Valid() && sink.total == Body(polls)
      && (onDone <==> listened && !Finished(polls))
      && signals == (if listened && Finished(polls) then 1 else 0)
    }

    constructor (listened: bool)
      ensures Valid() && polls == [] && this.listened == listened && fresh(sink)
    {
      sink := new CaptureSink();
      onDone, signals, this.listened, polls := listened, 0, listened, [];
    }

    /** `poll_frame`: what the inner body yields passes through unchanged. */
    method PollFrame(inner: Polled) returns (poll: Polled)
      requires Valid()
      modifies this, sink
      ensures Valid() && poll == inner && polls == old(polls) + [inner]
    {
      poll := inner;
      BodyOneMore(polls, inner);
      FinishedOneMore(polls, inner);
      if poll.Next? {
        if poll.frame.Data? {
          sink.Push(poll.frame.bytes);
        }
      } else if poll.EndOfStream? || poll.BodyError? {
        if onDone {
          onDone := false;
          signals := signals + 1;
        }
      }
      polls := polls + [inner];
    }
  }

  lemma BodyOneMore(polls: seq<Polled>, p: Polled)
    ensures Body(polls + [p]) == Body(polls) + BytesOf(p)
  {
    assert (polls + [p])[..|polls|] == polls;
  }

  lemma FinishedOneMore(polls: seq<Polled>, p: Polled)
    ensures Finished(polls + [p]) <==> Finished(polls) || p.EndOfStream? || p.BodyError?
  {
    var longer := polls + [p];
    assert forall i | 0 <= i < |polls| :: longer[i] == polls[i];
    assert longer[|polls|] == p;
  }

  /** For every way of cutting a body into frames: every frame is forwarded as
      it came, the capture is the first 64 KiB of the data, `truncated` says
      whether there was more, and completion is signalled at most once, exactly
      when someone listens and the body ended or failed. */
  method TeeAll(inner: seq<Polled>, listened: bool)
    returns (forwarded: seq<Polled>, captured: seq<byte>, truncated: bool, signals: nat)
    ensures forwarded == inner
    ensures captured == Take(Body(inner), 65536) && (truncated <==> |Body(inner)| > 65536)
    ensures signals == if listened && Finished(inner) then 1 else 0
  {
    var tee := new TeeBody(listened);
    forwarded := [];
    for i := 0 to |inner|
      invariant tee.Valid() && fresh(tee) && fresh(tee.sink)
      invariant forwarded == tee.polls == inner[..i]
    {
      var p := tee.PollFrame(inner[i]);
      forwarded := forwarded + [p];
    }
    assert inner[..|inner|] == inner;
    captured, truncated, signals := tee.sink.buf, tee.sink.truncated, tee.signals;
  }

  // ---- Recent exchanges ----

  function Reversed<T>(s: seq<T>): (r: seq<T>)
    ensures |r| == |s|
  {
    if s == [] then [] else [s[|s| - 1]] + Reversed(s[..|s| - 1])
  }

  lemma {:induction false} ReversedAt<T>(s: seq<T>, i: nat)
    requires i < |s|
    ensures Reversed(s)[i] == s[|s| - 1 - i]
  {
    if |s| > 1 {
      ReversedAt(s[..|s| - 1], if i == 0 then 0 else i - 1);
    }
  }

  class ExchangeList<T> {
    var exchanges: seq<T>
    ghost var history: seq<T>    // every exchange ever recorded, oldest first

    ghost predicate Valid()
      reads this
    {
      exchanges == Take(Reversed(history), MAX_EXCHANGES_PER_TUNNEL)
    }

    constructor ()
      ensures Valid() && history == []
    {
      exchanges, history := [], [];
    }

    /** `record_exchange`: push to the front, drop the oldest beyond 50. */
    method Record(e: T)
      requires Valid()
      modifies this
      ensures Valid() && history == old(history) + [e]
    {
      assert (history + [e])[..|history|] == history;
      history := history + [e];
      exchanges := [e] + exchanges;
      exchanges := Take(exchanges, MAX_EXCHANGES_PER_TUNNEL);
    }
  }

  /** Over any run the list is the newest 50, newest first. */
  method RecordAll<T>(run: seq<T>) returns (kept: seq<T>)
    ensures |kept| == if |run| <= 50 then |run| else 50
    ensures forall i | 0 <= i < |kept| :: kept[i] == run[|run| - 1 - i]
  {
    var list := new ExchangeList<T>();
    for i := 0 to |run|
      invariant list.Valid() && fresh(list) && list.history == run[..i]
    {
      list.Record(run[i]);
    }
    assert run[..|run|] == run;
    kept := list.exchanges;
    forall i | 0 <= i < |run| ensures Reversed(run)[i] == run[|run| - 1 - i] {
      ReversedAt(run, i);
    }
  }
}
