/** Base64 with the URL-safe alphabet (section 5 of RFC 4648), unpadded. */
module Base64Url {
  import opened Text

  type digit = x: int | 0 <= x < 64

  function Symbol(d: digit): char {
    if d < 26 then 'A' + d as char
    else if d < 52 then 'a' + (d - 26) as char
    else if d < 62 then '0' + (d - 52) as char
    else if d == 62 then '-'
    else '_'
  }

  predicate InAlphabet(c: char) {
    'A' <= c <= 'Z' || 'a' <= c <= 'z' || '0' <= c <= '9' || c == '-' || c == '_'
  }

  function Value(c: char): digit
    requires InAlphabet(c)
  {
    if 'A' <= c <= 'Z' then (c - 'A') as int
    else if 'a' <= c <= 'z' then (c - 'a') as int + 26
    else if '0' <= c <= '9' then (c - '0') as int + 52
    else if c == '-' then 62
    else 63
  }

  lemma SymbolRoundTrip(d: digit)
    ensures InAlphabet(Symbol(d)) && Value(Symbol(d)) == d
  {
  }

  /** The digits of `bytes`, six bits at a time, the last one padded with zero
      bits. */
  function Digits(bytes: seq<byte>): seq<digit> {
    if bytes == [] then []
    else if |bytes| == 1 then [bytes[0] / 4, bytes[0] % 4 * 16]
    else if |bytes| == 2 then [bytes[0] / 4, bytes[0] % 4 * 16 + bytes[1] / 16, bytes[1] % 16 * 4]
    else Quad(bytes[0], bytes[1], bytes[2]) + Digits(bytes[3..])
  }

  /** Three bytes as four digits. */
  function Quad(a: byte, b: byte, c: byte): seq<digit> {
    [a / 4, a % 4 * 16 + b / 16, b % 16 * 4 + c / 64, c % 64]
  }

  /** Four digits as three bytes. */
  function Triple(d: digit, e: digit, f: digit, g: digit): seq<byte> {
    [d as int * 4 + e / 16, (e % 16) as int * 16 + f / 4, (f % 4) as int * 64 + g]
  }

  /** Bytes from digits; stray bits or a lone digit are an error. */
  function Undigits(digits: seq<digit>): Option<seq<byte>> {
    if digits == [] then Some([])
    else if |digits| == 1 then None
    else if |digits| == 2 then
      (if digits[1] % 16 == 0 then Some(Triple(digits[0], digits[1], 0, 0)[..1]) else None)
    else if |digits| == 3 then
      (if digits[2] % 4 == 0 then Some(Triple(digits[0], digits[1], digits[2], 0)[..2]) else None)
    else
      var rest := Undigits(digits[4..]);
      if rest.None? then None else Some(Triple(digits[0], digits[1], digits[2], digits[3]) + rest.value)
  }

  function Encode(bytes: seq<byte>): string {
    Symbols(Digits(bytes))
  }

  function Decode(s: string): Option<seq<byte>> {
    if forall i | 0 <= i < |s| :: InAlphabet(s[i])
    then Undigits(Values(s))
    else None
  }

  function Values(s: string): seq<digit>
    requires forall i | 0 <= i < |s| :: InAlphabet(s[i])
  {
    seq(|s|, i requires 0 <= i < |s| => Value(s[i]))
  }

  lemma QuadRoundTrip(a: byte, b: byte, c: byte)
    ensures var q := Quad(a, b, c); Triple(q[0], q[1], q[2], q[3]) == [a, b, c]
  {
  }

  lemma TripleRoundTrip(d: digit, e: digit, f: digit, g: digit)
    ensures var t := Triple(d, e, f, g); Quad(t[0], t[1], t[2]) == [d, e, f, g]
  {
    var t := Triple(d, e, f, g);
    assert t[0] / 4 == d && t[0] % 4 == e / 16;
    assert t[1] / 16 == e % 16 && t[1] % 16 == f / 4;
    assert t[2] / 64 == f % 4 && t[2] % 64 == g;
  }

  lemma {:induction false} DigitsRoundTrip(bytes: seq<byte>)
    ensures Undigits(Digits(bytes)) == Some(bytes)
  {
    if |bytes| == 1 {
      QuadRoundTrip(bytes[0], 0, 0);
      var d := Digits(bytes);
      assert Quad(bytes[0], 0, 0) == d + [0, 0] && d[1] % 16 == 0;
      assert Triple(d[0], d[1], 0, 0) == [bytes[0], 0, 0];
      assert bytes == [bytes[0], 0, 0][..1];
    } else if |bytes| == 2 {
      QuadRoundTrip(bytes[0], bytes[1], 0);
      var d := Digits(bytes);
      assert Quad(bytes[0], bytes[1], 0) == d + [0] && d[2] % 4 == 0;
      assert Triple(d[0], d[1], d[2], 0) == [bytes[0], bytes[1], 0];
      assert bytes == [bytes[0], bytes[1], 0][..2];
    } else if |bytes| >= 3 {
      QuadRoundTrip(bytes[0], bytes[1], bytes[2]);
      DigitsRoundTrip(bytes[3..]);
      var d := Digits(bytes);
      assert d[..4] == Quad(bytes[0], bytes[1], bytes[2]) && d[4..] == Digits(bytes[3..]);
      assert bytes == [bytes[0], bytes[1], bytes[2]] + bytes[3..];
    }
  }

  /** Encoding loses nothing and stays within the alphabet, which has no dot. */
  lemma RoundTrip(bytes: seq<byte>)
    ensures Decode(Encode(bytes)) == Some(bytes)
    ensures forall i | 0 <= i < |Encode(bytes)| :: InAlphabet(Encode(bytes)[i])
    ensures '.' !in Encode(bytes)
  {
    var d, s := Digits(bytes), Encode(bytes);
    forall i | 0 <= i < |s| ensures InAlphabet(s[i]) && Value(s[i]) == d[i] {
      SymbolRoundTrip(d[i]);
    }
    assert Values(s) == d;
    DigitsRoundTrip(bytes);
  }

  lemma {:induction false} UndigitsRoundTrip(digits: seq<digit>)
    requires Undigits(digits).Some?
    ensures Digits(Undigits(digits).value) == digits
  {
    if |digits| == 2 {
      TripleRoundTrip(digits[0], digits[1], 0, 0);
    } else if |digits| == 3 {
      TripleRoundTrip(digits[0], digits[1], digits[2], 0);
    } else if |digits| >= 4 {
      TripleRoundTrip(digits[0], digits[1], digits[2], digits[3]);
      UndigitsRoundTrip(digits[4..]);
      var bytes := Undigits(digits).value;
      assert bytes[..3] == Triple(digits[0], digits[1], digits[2], digits[3]);
      assert bytes[3..] == Undigits(digits[4..]).value;
      assert digits == [digits[0], digits[1], digits[2], digits[3]] + digits[4..];
    }
  }

  /** Nothing decodes that encoding would not have written. */
  lemma DecodeIsCanonical(s: string)
    requires Decode(s).Some?
    ensures Encode(Decode(s).value) == s
  {
    UndigitsRoundTrip(Values(s));
    SymbolsOfValues(s);
  }

  function Symbols(digits: seq<digit>): string {
    seq(|digits|, i requires 0 <= i < |digits| => Symbol(digits[i]))
  }

  lemma ValueRoundTrip(c: char)
    requires InAlphabet(c)
    ensures Symbol(Value(c)) == c
  {
  }

  lemma SymbolsOfValues(s: string)
    requires forall i | 0 <= i < |s| :: InAlphabet(s[i])
    ensures Symbols(Values(s)) == s
  {
    forall i | 0 <= i < |s| ensures Symbols(Values(s))[i] == s[i] {
      ValueRoundTrip(s[i]);
    }
  }
}
