/**
  Tailing a log file: reading backward in chunks from the end gives the same
  lines as reading the whole file.
 */
module Tail {
  import opened Text

  const READ_CHUNK_SIZE := 65536
  const MAX_TAIL_READ_BYTES := 8388608
  const NEWLINE: byte := 10
  const RETURN: byte := 13
  const ESCAPE: byte := 27
  const BRACKET: byte := 91

  // ---- Lines ----

  /** A line that ended in a newline loses one carriage return with it. */
  function Chomp(line: seq<byte>): seq<byte> {
    if line != [] && line[|line| - 1] == RETURN then line[..|line| - 1] else line
  }

  /** Index of the first newline, or the length when there is none. */
  function FirstNewline(s: seq<byte>): (k: nat)
    ensures k <= |s|
  {
    if s == [] || s[0] == NEWLINE then 0 else 1 + FirstNewline(s[1..])
  }

  lemma {:induction false} FirstNewlineFound(s: seq<byte>)
    ensures FirstNewline(s) < |s| ==> s[FirstNewline(s)] == NEWLINE
    ensures forall i | 0 <= i < FirstNewline(s) :: s[i] != NEWLINE
  {
    if s != [] && s[0] != NEWLINE {
      FirstNewlineFound(s[1..]);
      forall i | 0 <= i < FirstNewline(s) ensures s[i] != NEWLINE {
        assert i > 0 ==> s[i] == s[1..][i - 1];
      }
    }
  }

  /** `str::lines`: what follows the last newline is a line unless empty. */
  function Lines(s: seq<byte>): seq<seq<byte>> {
    if s == [] then []
    else
      var k := FirstNewline(s);
      if k == |s| then [s] else [Chomp(s[..k])] + Lines(s[k + 1..])
  }

  function Newlines(s: seq<byte>): nat {
    if s == [] then 0 else (if s[0] == NEWLINE then 1 else 0) + Newlines(s[1..])
  }

  lemma {:induction false} NewlinesConcat(a: seq<byte>, b: seq<byte>)
    ensures Newlines(a + b) == Newlines(a) + Newlines(b)
  {
    if a == [] {
      assert a + b == b;
    } else {
      NewlinesConcat(a[1..], b);
      assert (a + b)[1..] == a[1..] + b;
    }
  }

  lemma {:induction false} NewlinesTo(s: seq<byte>, k: nat)
    requires k <= |s| && forall i | 0 <= i < k :: s[i] != NEWLINE
    ensures Newlines(s) == Newlines(s[k..])
  {
    if k == 0 {
      assert s[k..] == s;
    } else {
      NewlinesTo(s[1..], k - 1);
      assert s[1..][k - 1..] == s[k..];
    }
  }

  lemma FirstNewlineIs(s: seq<byte>, k: nat)
    requires k < |s| && s[k] == NEWLINE && forall i | 0 <= i < k :: s[i] != NEWLINE
    ensures FirstNewline(s) == k
  {
    FirstNewlineFound(s);
  }

  /** Every newline ends a line. */
  lemma {:induction false} AtLeastNewlines(s: seq<byte>)
    ensures |Lines(s)| >= Newlines(s)
  {
    if s != [] {
      var k := FirstNewline(s);
      FirstNewlineFound(s);
      NewlinesTo(s, k);
      if k < |s| {
        assert s[k..][1..] == s[k + 1..];
        AtLeastNewlines(s[k + 1..]);
      }
    }
  }

  lemma SplitConcat(a: seq<byte>, b: seq<byte>, k: nat)
    requires k < |a|
    ensures (a + b)[..k] == a[..k] && (a + b)[k + 1..] == a[k + 1..] + b
    ensures k + 1 == |a| ==> a[k + 1..] == [] && a[k + 1..] + b == b
  {
  }

  lemma ConsConcat(x: seq<byte>, p: seq<seq<byte>>, q: seq<seq<byte>>)
    ensures ([x] + p) + q == [x] + (p + q)
    ensures [] + q == q
  {
  }

  lemma LinesStep(s: seq<byte>, k: nat)
    requires k < |s| && k == FirstNewline(s)
    ensures Lines(s) == [Chomp(s[..k])] + Lines(s[k + 1..])
  {
  }

  /** After a newline the lines start afresh. */
  lemma {:induction false} LinesConcat(a: seq<byte>, b: seq<byte>)
    requires a != [] && a[|a| - 1] == NEWLINE
    ensures Lines(a + b) == Lines(a) + Lines(b)
    decreases |a|
  {
    var k := FirstNewline(a);
    FirstNewlineFound(a);
    FirstNewlineIs(a + b, k);
    LinesStep(a + b, k);
    LinesStep(a, k);
    SplitConcat(a, b, k);
    ConsConcat(Chomp(a[..k]), Lines(a[k + 1..]), Lines(b));
    if k + 1 < |a| {
      LinesConcat(a[k + 1..], b);
    }
  }

  /** `str::lines`, line by line: text up to a newline is a line, without the
      newline and without a carriage return before it; what is left at the end
      without a newline is a line as it is. */
  lemma LinesMeans(line: seq<byte>, rest: seq<byte>)
    requires 10 !in line
    ensures Lines(line + [13, 10] + rest) == [line] + Lines(rest)
    ensures (line == [] || line[|line| - 1] != 13) ==> Lines(line + [10] + rest) == [line] + Lines(rest)
    ensures line != [] ==> Lines(line) == [line]
    ensures Lines([]) == []
  {
    CrLfEnds(line, rest);
    LineEnds(line, rest);
    LastLine(line);
  }

  lemma CrLfEnds(line: seq<byte>, rest: seq<byte>)
    requires 10 !in line
    ensures Lines(line + [13, 10] + rest) == [line] + Lines(rest)
  {
    LineEnds(line + [13], rest);
    assert line + [13, 10] + rest == (line + [13]) + [10] + rest;
    assert Chomp(line + [13]) == line;
  }

  lemma LastLine(line: seq<byte>)
    requires 10 !in line
    ensures line != [] ==> Lines(line) == [line]
    ensures Lines([]) == []
  {
    FirstNewlineFound(line);
  }

  lemma LineEnds(line: seq<byte>, rest: seq<byte>)
    requires 10 !in line
    ensures Lines(line + [10] + rest) == [Chomp(line)] + Lines(rest)
  {
    var s := line + [10] + rest;
    FirstNewlineIs(s, |line|);
    LinesStep(s, |line|);
    assert s[..|line|] == line && s[|line| + 1..] == rest;
  }

  function LastN(lines: seq<seq<byte>>, n: nat): seq<seq<byte>> {
    if |lines| <= n then lines else lines[|lines| - n..]
  }

  predicate IsSuffix(s: seq<seq<byte>>, t: seq<seq<byte>>) {
    |s| <= |t| && t[|t| - |s|..] == s
  }

  /** Lines of a buffer cut from a file's end, its first fragment dropped. */
  function WholeLines(buf: seq<byte>): seq<seq<byte>> {
    if Lines(buf) == [] then [] else Lines(buf)[1..]
  }

  lemma WholeLinesAre(buf: seq<byte>)
    ensures WholeLines(buf) == (if FirstNewline(buf) < |buf| then Lines(buf[FirstNewline(buf) + 1..]) else [])
  {
    var k := FirstNewline(buf);
    if k < |buf| {
      LinesStep(buf, k);
      DropHead(Chomp(buf[..k]), Lines(buf[k + 1..]));
    } else if buf != [] {
      assert Lines(buf) == [buf];
    }
  }

  lemma DropHead(x: seq<byte>, rest: seq<seq<byte>>)
    ensures ([x] + rest)[1..] == rest
  {
  }

  lemma SuffixOfConcat(a: seq<seq<byte>>, b: seq<seq<byte>>)
    ensures IsSuffix(b, a + b)
  {
  }

  lemma CutAt(before: seq<byte>, buf: seq<byte>, k: nat)
    requires k < |buf|
    ensures before + buf == (before + buf[..k + 1]) + buf[k + 1..]
    ensures (before + buf[..k + 1])[|before| + k] == buf[k]
  {
  }

  /** Wherever the cut falls, dropping the first fragment leaves true lines of
      the file, at least one for every newline after the first. */
  lemma CutLines(before: seq<byte>, buf: seq<byte>)
    ensures IsSuffix(WholeLines(buf), Lines(before + buf))
    ensures |WholeLines(buf)| >= Newlines(buf) - 1
  {
    AtLeastNewlines(buf);
    WholeLinesAre(buf);
    FirstNewlineFound(buf);
    var k := FirstNewline(buf);
    if k < |buf| {
      var head, rest := before + buf[..k + 1], buf[k + 1..];
      CutAt(before, buf, k);
      LinesConcat(head, rest);
      SuffixOfConcat(Lines(head), Lines(rest));
    }
  }

  lemma SuffixLastN(s: seq<seq<byte>>, t: seq<seq<byte>>, n: nat)
    requires IsSuffix(s, t)
    ensures IsSuffix(LastN(s, n), t)
    ensures |s| >= n ==> LastN(s, n) == LastN(t, n)
  {
  }

  // ---- Escape sequences ----

  /** The text after the final byte of a control sequence. */
  function AfterFinal(s: seq<byte>): (r: seq<byte>)
    ensures |r| <= |s|
  {
    if s == [] then [] else if 64 <= s[0] <= 126 then s[1..] else AfterFinal(s[1..])
  }

  predicate StartsSequence(s: seq<byte>) {
    |s| >= 2 && s[0] == ESCAPE && s[1] == BRACKET
  }

  /** `strip_ansi`, as what it computes. */
  function Strip(s: seq<byte>): seq<byte>
    decreases |s|
  {
    if s == [] then []
    else if StartsSequence(s) then Strip(AfterFinal(s[2..]))
    else [s[0]] + Strip(s[1..])
  }

  lemma {:induction false} StripShortens(s: seq<byte>)
    ensures |Strip(s)| <= |s|
    decreases |s|
  {
    if s != [] {
      StripShortens(if StartsSequence(s) then AfterFinal(s[2..]) else s[1..]);
    }
  }

  /** Exactly the text without a control sequence is left alone. */
  lemma {:induction false} StripKeepsPlainText(s: seq<byte>)
    ensures Strip(s) == s <==> forall i | 0 <= i < |s| :: !StartsSequence(s[i..])
  {
    if s != [] {
      assert s[0..] == s;
      if StartsSequence(s) {
        StripShortens(AfterFinal(s[2..]));
        assert |Strip(s)| < |s|;
      } else {
        StripKeepsPlainText(s[1..]);
        assert forall i | 1 <= i < |s| :: s[i..] == s[1..][i - 1..];
        assert s == [s[0]] + s[1..];
        assert Strip(s)[1..] == Strip(s[1..]);
      }
    }
  }

  /** No byte of the text ends a control sequence. */
  predicate Params(s: seq<byte>) {
    forall i | 0 <= i < |s| :: !(64 <= s[i] <= 126)
  }

  lemma {:induction false} AfterParams(params: seq<byte>, rest: seq<byte>)
    requires Params(params)
    ensures AfterFinal(params + rest) == AfterFinal(rest)
  {
    if params == [] {
      assert params + rest == rest;
    } else {
      assert (params + rest)[1..] == params[1..] + rest;
      AfterParams(params[1..], rest);
    }
  }

  /** Every control sequence that begins in the text also ends in it. */
  predicate Complete(s: seq<byte>)
    decreases |s|
  {
    s == [] ||
    if StartsSequence(s) then !Params(s[2..]) && Complete(AfterFinal(s[2..])) else Complete(s[1..])
  }

  lemma {:induction false} AfterFinalConcat(s: seq<byte>, t: seq<byte>)
    ensures !Params(s) ==> AfterFinal(s + t) == AfterFinal(s) + t
    ensures Params(s) ==> AfterFinal(s) == []
  {
    if s != [] {
      assert (s + t)[1..] == s[1..] + t;
      AfterFinalConcat(s[1..], t);
      assert Params(s) <==> !(64 <= s[0] <= 126) && Params(s[1..]);
    }
  }

  lemma StripUnfolds(s: seq<byte>)
    requires s != []
    ensures StartsSequence(s) ==> Strip(s) == Strip(AfterFinal(s[2..]))
    ensures !StartsSequence(s) ==> Strip(s) == [s[0]] + Strip(s[1..])
  {
  }

  lemma ConcatParts(a: seq<byte>, t: seq<byte>)
    requires a != []
    ensures (a + t)[0] == a[0] && (a + t)[1..] == a[1..] + t
    ensures |a| >= 2 ==> (a + t)[1] == a[1] && (a + t)[2..] == a[2..] + t
    ensures |a| == 1 && t != [] ==> (a + t)[1] == t[0]
  {
  }

  lemma ByteConcat(x: byte, p: seq<byte>, q: seq<byte>)
    ensures [x] + (p + q) == ([x] + p) + q
  {
  }

  /** The text does not end in an escape that `t` would turn into a sequence. */
  predicate Seam(a: seq<byte>, t: seq<byte>) {
    a != [] && a[|a| - 1] == ESCAPE ==> t == [] || t[0] != BRACKET
  }

  /** What follows a complete text is stripped on its own. */
  lemma {:induction false} StripConcat(a: seq<byte>, t: seq<byte>)
    requires Complete(a) && Seam(a, t)
    ensures Strip(a + t) == Strip(a) + Strip(t)
    decreases |a|, 1
  {
    if a == [] {
      assert a + t == t;
    } else {
      ConcatParts(a, t);
      StripUnfolds(a);
      StripUnfolds(a + t);
      if StartsSequence(a) {
        StripPastSequence(a[2..], t, a);
      } else {
        StripConcat(a[1..], t);
        ByteConcat(a[0], Strip(a[1..]), Strip(t));
      }
    }
  }

  lemma StripPastSequence(rest: seq<byte>, t: seq<byte>, a: seq<byte>)
    requires |rest| < |a| && rest != [] && a[|a| - 1] == rest[|rest| - 1]
    requires !Params(rest) && Complete(AfterFinal(rest)) && Seam(a, t)
    ensures Strip(AfterFinal(rest + t)) == Strip(AfterFinal(rest)) + Strip(t)
    decreases |a|, 0
  {
    AfterFinalConcat(rest, t);
    AfterFinalEnds(rest);
    StripConcat(AfterFinal(rest), t);
  }

  lemma {:induction false} AfterFinalEnds(s: seq<byte>)
    ensures AfterFinal(s) != [] ==> s != [] && AfterFinal(s)[|AfterFinal(s)| - 1] == s[|s| - 1]
  {
    if s != [] && !(64 <= s[0] <= 126) {
      AfterFinalEnds(s[1..]);
    }
  }

  /** ESC, "[", parameter bytes and a final byte from '@' to '~' vanish, and the
      text around them is stripped on its own. */
  lemma StripSequence(a: seq<byte>, params: seq<byte>, final: byte, b: seq<byte>)
    requires Complete(a) && 64 <= final <= 126 && forall i | 0 <= i < |params| :: !(64 <= params[i] <= 126)
    ensures Strip(a + ([27, 91] + params + [final] + b)) == Strip(a) + Strip(b)
  {
    var t := [27, 91] + params + [final] + b;
    SequenceParts(params, final, b);
    StripConcat(a, t);
    StripUnfolds(t);
    AfterParams(params, [final] + b);
  }

  lemma SequenceParts(params: seq<byte>, final: byte, b: seq<byte>)
    ensures var t := [27, 91] + params + [final] + b;
      |t| >= 2 && t[0] == 27 && t[1] == 91 && t[2..] == params + ([final] + b) && ([final] + b)[1..] == b
  {
  }

  /** The premise is needed: a sequence left open takes the next one's "[" for
      its final byte, and the rest of that one stays. */
  lemma OpenSequenceSwallows()
    ensures !Complete([27, 91, 49]) && Strip([27, 91, 49] + ([27, 91] + [51] + [109] + [])) == [51, 109]
  {
    var a, t := [27, 91, 49], [27, 91, 51, 109];
    assert a[2..] == [49] && [49][1..] == [];
    assert a + ([27, 91] + [51] + [109] + []) == [27, 91, 49, 27, 91, 51, 109];
    var s := [27, 91, 49, 27, 91, 51, 109];
    assert s[2..] == [49, 27, 91, 51, 109];
    assert [49, 27, 91, 51, 109][1..] == [27, 91, 51, 109] && [27, 91, 51, 109][1..] == [91, 51, 109] && [91, 51, 109][1..] == [51, 109];
    assert AfterFinal(s[2..]) == [51, 109];
    assert [51, 109][1..] == [109] && [109][1..] == [];
    assert Strip([51, 109]) == [51] + Strip([109]) && Strip([109]) == [109] + Strip([]);
  }

  /** Plain text is complete. */
  lemma {:induction false} PlainIsComplete(s: seq<byte>)
    requires forall i | 0 <= i < |s| :: !StartsSequence(s[i..])
    ensures Complete(s)
  {
    if s != [] {
      assert s[0..] == s;
      assert forall i | 0 <= i < |s[1..]| :: s[1..][i..] == s[i + 1..];
      PlainIsComplete(s[1..]);
    }
  }

  lemma StripStep(s: seq<byte>, i: nat)
    requires i < |s|
    ensures Strip(s[i..]) == if s[i] == ESCAPE && i + 1 < |s| && s[i + 1] == BRACKET then Strip(AfterFinal(s[i + 2..]))
                             else [s[i]] + Strip(s[i + 1..])
  {
    var t := s[i..];
    assert t[1..] == s[i + 1..];
    assert |t| >= 2 ==> t[1] == s[i + 1] && t[2..] == s[i + 2..];
  }

  lemma AfterFinalStep(s: seq<byte>, i: nat)
    requires i < |s|
    ensures AfterFinal(s[i..]) == if 64 <= s[i] <= 126 then s[i + 1..] else AfterFinal(s[i + 1..])
  {
    assert s[i..][1..] == s[i + 1..];
  }

  method StripAnsi(s: seq<byte>) returns (out: seq<byte>)
    ensures out == Strip(s)
  {
    out := [];
    var i := 0;
    while i < |s|
      invariant 0 <= i <= |s|
      invariant out + Strip(s[i..]) == Strip(s)
    {
      StripStep(s, i);
      if s[i] == ESCAPE && i + 1 < |s| && s[i + 1] == BRACKET {
        ghost var start := i;
        i := i + 2;
        var done := false;
        while i < |s| && !done
          invariant start + 2 <= i <= |s|
          invariant AfterFinal(s[start + 2..]) == if done then s[i..] else AfterFinal(s[i..])
          decreases |s| - i, !done
        {
          done := 64 <= s[i] <= 126;
          AfterFinalStep(s, i);
          i := i + 1;
        }
      } else {
        out := out + [s[i]];
        i := i + 1;
      }
    }
  }

  function StripEach(lines: seq<seq<byte>>): seq<seq<byte>> {
    seq(|lines|, i requires 0 <= i < |lines| => Strip(lines[i]))
  }

  // ---- The tail ----

  /** Read backward until byte 0, more than `n` newlines, the cap, or a failed
      read; `buf` is then the end of the file from `pos` on. */
  method ReadBack(file: seq<byte>, n: nat) returns (pos: nat, buf: seq<byte>, newlines: nat, failed: bool)
    ensures pos <= |file| && buf == file[pos..] && newlines == Newlines(buf)
    ensures |buf| <= MAX_TAIL_READ_BYTES
    ensures failed || pos == 0 || newlines > n || |buf| == MAX_TAIL_READ_BYTES
  {
    pos, buf, newlines, failed := |file|, [], 0, false;
    var total := 0;
    while pos > 0 && newlines <= n && total < MAX_TAIL_READ_BYTES
      invariant 0 <= pos <= |file| && buf == file[pos..] && newlines == Newlines(buf)
      invariant total == |buf| <= MAX_TAIL_READ_BYTES && (pos > 0 ==> total % READ_CHUNK_SIZE == 0)
      decreases pos
    {
      var size := if READ_CHUNK_SIZE < pos then READ_CHUNK_SIZE else pos;
      var start := pos - size;
      failed := *;
      if failed {
        break;
      }
      var chunk := file[start..pos];
      NewlinesConcat(chunk, buf);
      assert file[start..] == chunk + buf;
      newlines := newlines + Newlines(chunk);
      total := total + size;
      buf := chunk + buf;
      pos := start;
    }
  }

  /** The true lines among those read, at most `n`. */
  method TailLines(file: seq<byte>, n: nat) returns (lines: seq<seq<byte>>, pos: nat, failed: bool)
    ensures pos <= |file| && |file| - pos <= MAX_TAIL_READ_BYTES
    ensures |lines| <= n && IsSuffix(lines, Lines(file))
    ensures pos == 0 || Newlines(file[pos..]) > n ==> lines == LastN(Lines(file), n)
    ensures failed || pos == 0 || Newlines(file[pos..]) > n || pos == |file| - MAX_TAIL_READ_BYTES
  {
    var buf, newlines;
    pos, buf, newlines, failed := ReadBack(file, n);
    assert file == file[..pos] + buf;
    lines := Lines(buf);
    if pos > 0 && lines != [] {
      lines := lines[1..];
    }
    CutLines(file[..pos], buf);
    assert pos == 0 ==> lines == Lines(file);
    SuffixLastN(lines, Lines(file), n);
    lines := LastN(lines, n);
  }

  /** Stripping line by line keeps a suffix one. */
  lemma StripSuffix(s: seq<seq<byte>>, t: seq<seq<byte>>)
    requires IsSuffix(s, t)
    ensures IsSuffix(StripEach(s), StripEach(t))
  {
    forall i | 0 <= i < |s| ensures StripEach(t)[|t| - |s|..][i] == StripEach(s)[i] {
      assert t[|t| - |s|..][i] == t[|t| - |s| + i];
    }
  }

  /** `tail_file`: the last `n` lines of the file whenever byte 0 or more than
      `n` newlines were reached; in every case at most `n` true final lines; and
      never more than 8 MiB read. */
  method TailFile(file: seq<byte>, n: nat) returns (tail: seq<seq<byte>>, pos: nat, failed: bool)
    ensures pos <= |file| && |file| - pos <= 8388608
    ensures |tail| <= n && IsSuffix(tail, StripEach(Lines(file)))
    ensures pos == 0 || Newlines(file[pos..]) > n ==> tail == StripEach(LastN(Lines(file), n))
    ensures !failed && (|file| <= 8388608 || Newlines(file[|file| - 8388608..]) > n) ==> tail == StripEach(LastN(Lines(file), n))
  {
    var lines;
    lines, pos, failed := TailLines(file, n);
    StripSuffix(lines, Lines(file));
    tail := [];
    for i := 0 to |lines|
      invariant tail == StripEach(lines[..i])
    {
      var line := StripAnsi(lines[i]);
      tail := tail + [line];
    }
    assert lines[..|lines|] == lines;
  }
}
