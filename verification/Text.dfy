/** What the modules share: optional values, bytes, sequences, and the string
    handling of the daemon and the tunnel service. */
module Text {

  datatype Option<+T> = None | Some(value: T)

  type byte = x: int | 0 <= x < 256

  function Pow2(e: nat): (p: nat)
    ensures p >= 1
  {
    if e == 0 then 1 else 2 * Pow2(e - 1)
  }

  /** The first `n` elements, or all of them. */
  function Take<T>(s: seq<T>, n: nat): seq<T> {
    if |s| <= n then s else s[..n]
  }

  predicate NoDup<T(==)>(s: seq<T>) {
    forall i, j | 0 <= i < j < |s| :: s[i] != s[j]
  }

  /** `str::trim_end_matches('/')`. */
  function TrimSlash(s: string): string {
    if s != "" && s[|s| - 1] == '/' then TrimSlash(s[..|s| - 1]) else s
  }

  /** ASCII whitespace, as `str::trim` removes it. */
  predicate IsSpace(c: char) {
    c == ' ' || '\t' <= c <= '\r'
  }

  function TrimStart(s: string): string {
    if s != "" && IsSpace(s[0]) then TrimStart(s[1..]) else s
  }

  function TrimEnd(s: string): string {
    if s != "" && IsSpace(s[|s| - 1]) then TrimEnd(s[..|s| - 1]) else s
  }

  predicate SchemeAt(s: string, i: nat) {
    i + 3 <= |s| && s[i..i + 3] == "://"
  }

  predicate HasScheme(s: string) {
    exists i | 0 <= i < |s| :: SchemeAt(s, i)
  }

  /** `normalize_endpoint`: trim, then default the scheme to plain HTTP. */
  function Normalize(endpoint: string): string {
    var e := TrimEnd(TrimStart(endpoint));
    if e == "" || HasScheme(e) then e else "http://" + e
  }

  /** Two endpoints name the same backend when they agree after normalising
      and dropping trailing slashes. */
  function Canon(endpoint: string): string {
    TrimSlash(Normalize(endpoint))
  }

  function Decimal(n: nat): string {
    if n < 10 then [(n as char) + '0'] else Decimal(n / 10) + [((n % 10) as char) + '0']
  }

  /** The endpoint the daemon writes to a proxy for an inspector on `port`. */
  function InspectorEndpoint(port: nat): string {
    "http://127.0.0.1:" + Decimal(port)
  }

  ghost predicate Trimmed(s: string) {
    s != "" ==> !IsSpace(s[0]) && !IsSpace(s[|s| - 1])
  }

  lemma {:induction false} TrimStartTrims(s: string)
    ensures TrimStart(s) != "" ==> !IsSpace(TrimStart(s)[0])
    ensures s != "" && TrimStart(s) != "" ==> TrimStart(s)[|TrimStart(s)| - 1] == s[|s| - 1]
  {
    if s != "" && IsSpace(s[0]) {
      TrimStartTrims(s[1..]);
    }
  }

  lemma {:induction false} TrimEndTrims(s: string)
    ensures TrimEnd(s) != "" ==> !IsSpace(TrimEnd(s)[|TrimEnd(s)| - 1])
    ensures TrimEnd(s) != "" ==> s != "" && TrimEnd(s)[0] == s[0]
  {
    if s != "" && IsSpace(s[|s| - 1]) {
      TrimEndTrims(s[..|s| - 1]);
    }
  }

  lemma NormalizeTrims(e: string)
    ensures Trimmed(Normalize(e))
    ensures Normalize(e) != "" ==> HasScheme(Normalize(e))
  {
    TrimStartTrims(e);
    TrimEndTrims(TrimStart(e));
    var n := Normalize(e);
    if n != "" && n != TrimEnd(TrimStart(e)) {
      assert SchemeAt(n, 4);
    }
  }

  /** Normalising twice is normalising once, so reading a proxy's endpoint
      back and writing it again never moves the tunnel. */
  lemma NormalizeIdempotent(e: string)
    ensures Normalize(Normalize(e)) == Normalize(e)
    ensures Canon(Normalize(e)) == Canon(e)
  {
    NormalizeTrims(e);
  }

  // ---- What the string functions compute ----

  /** Space, tab, newline, vertical tab, form feed, carriage return. */
  predicate Blank(s: string) {
    forall i | 0 <= i < |s| :: s[i] in " \t\n\U{0B}\U{0C}\r"
  }

  /** A text that neither begins nor ends with a blank. */
  predicate Core(e: string) {
    e != "" && e[0] !in " \t\n\U{0B}\U{0C}\r" && e[|e| - 1] !in " \t\n\U{0B}\U{0C}\r"
  }

  lemma SpaceIs(c: char)
    ensures IsSpace(c) <==> c in " \t\n\U{0B}\U{0C}\r"
  {
    assert '\t' as int == 9 && '\n' as int == 10 && '\r' as int == 13;
    assert c in " \t\n\U{0B}\U{0C}\r" <==> c == ' ' || c == '\t' || c == '\n' || c == '\U{0B}' || c == '\U{0C}' || c == '\r';
  }

  lemma {:induction false} TrimStartDrops(w: string, s: string)
    requires Blank(w)
    ensures TrimStart(w + s) == TrimStart(s)
  {
    if w == "" {
      assert w + s == s;
    } else {
      SpaceIs(w[0]);
      assert (w + s)[1..] == w[1..] + s;
      TrimStartDrops(w[1..], s);
    }
  }

  lemma {:induction false} TrimEndDrops(s: string, v: string)
    requires Blank(v)
    ensures TrimEnd(s + v) == TrimEnd(s)
  {
    if v == "" {
      assert s + v == s;
    } else {
      SpaceIs(v[|v| - 1]);
      assert (s + v)[..|s + v| - 1] == s + v[..|v| - 1];
      TrimEndDrops(s, v[..|v| - 1]);
    }
  }

  /** "://" occurs in the text, between `a` and `b`. */
  predicate Joins(e: string, a: string, b: string) {
    e == a + "://" + b
  }

  /** What `normalize_endpoint` computes: blanks around the text go, and a text
      without "://" is given "http://"; blanks alone give nothing. */
  lemma NormalizeMeans(w: string, e: string, v: string)
    requires Blank(w) && Blank(v) && Core(e)
    ensures (exists a, b :: Joins(e, a, b)) ==> Normalize(w + e + v) == e
    ensures !(exists a, b :: Joins(e, a, b)) ==> Normalize(w + e + v) == "http://" + e
    ensures Normalize(w) == ""
  {
    SpaceIs(e[0]);
    SpaceIs(e[|e| - 1]);
    assert w + e + v == w + (e + v);
    TrimStartDrops(w, e + v);
    assert TrimStart(e + v) == e + v;
    TrimEndDrops(e, v);
    TrimStartDrops(w, "");
    assert w + "" == w;
    SchemeOccurs(e);
  }

  lemma SchemeOccurs(e: string)
    ensures HasScheme(e) <==> exists a, b :: Joins(e, a, b)
  {
    if HasScheme(e) {
      var i :| 0 <= i < |e| && SchemeAt(e, i);
      assert Joins(e, e[..i], e[i + 3..]);
    }
    if a, b :| Joins(e, a, b) {
      assert e[|a|..|a| + 3] == "://";
      assert SchemeAt(e, |a|);
    }
  }

  /** Every text is blank, or a core between blanks, so the above says it all. */
  lemma {:induction false} EveryEndpoint(s: string)
    ensures Blank(s) || exists w, e, v :: Blank(w) && Core(e) && Blank(v) && s == w + e + v
  {
    if s != "" {
      if s[0] in " \t\n\U{0B}\U{0C}\r" {
        EveryEndpoint(s[1..]);
        if !Blank(s) {
          assert !Blank(s[1..]);
          var w, e, v :| Blank(w) && Core(e) && Blank(v) && s[1..] == w + e + v;
          assert s == ([s[0]] + w) + e + v && Blank([s[0]] + w);
        }
      } else {
        LeadingCore(s);
      }
    }
  }

  lemma {:induction false} LeadingCore(s: string)
    requires s != "" && s[0] !in " \t\n\U{0B}\U{0C}\r"
    ensures exists w, e, v :: Blank(w) && Core(e) && Blank(v) && s == w + e + v
  {
    if s[|s| - 1] in " \t\n\U{0B}\U{0C}\r" {
      LeadingCore(s[..|s| - 1]);
      var w, e, v :| Blank(w) && Core(e) && Blank(v) && s[..|s| - 1] == w + e + v;
      assert s == w + e + (v + [s[|s| - 1]]) && Blank(v + [s[|s| - 1]]);
    } else {
      assert s == "" + s + "" && Blank("") && Core(s);
    }
  }

  /** `trim_end_matches('/')`: all slashes at the end go, and nothing else. */
  lemma {:induction false} TrimSlashMeans(s: string, slashes: string)
    requires (s != "" ==> s[|s| - 1] != '/') && forall i | 0 <= i < |slashes| :: slashes[i] == '/'
    ensures TrimSlash(s + slashes) == s
  {
    if slashes == "" {
      assert s + slashes == s;
    } else {
      assert (s + slashes)[..|s + slashes| - 1] == s + slashes[..|slashes| - 1];
      TrimSlashMeans(s, slashes[..|slashes| - 1]);
    }
  }

  /** The number a run of decimal digits stands for. */
  function NumberOf(digits: string): int {
    if digits == "" then 0 else 10 * NumberOf(digits[..|digits| - 1]) + (digits[|digits| - 1] as int - '0' as int)
  }

  /** A port is written in decimal, without leading zeros. */
  lemma {:induction false} DecimalMeans(n: nat)
    ensures NumberOf(Decimal(n)) == n
    ensures n > 0 ==> Decimal(n) != "" && Decimal(n)[0] != '0'
  {
    if n >= 10 {
      DecimalMeans(n / 10);
      var d := Decimal(n);
      assert d[..|d| - 1] == Decimal(n / 10);
    } else {
      assert Decimal(n)[..0] == "";
    }
  }

  lemma {:induction false} DecimalDigits(n: nat)
    ensures Decimal(n) != ""
    ensures forall i :: 0 <= i < |Decimal(n)| ==> '0' <= Decimal(n)[i] <= '9'
  {
    if n >= 10 {
      DecimalDigits(n / 10);
    }
  }

  lemma {:induction false} DecimalInjective(m: nat, n: nat)
    requires Decimal(m) == Decimal(n)
    ensures m == n
  {
    DecimalDigits(m / 10);
    DecimalDigits(n / 10);
    assert m < 10 <==> |Decimal(m)| == 1;
    assert n < 10 <==> |Decimal(n)| == 1;
    var d, e := Decimal(m), Decimal(n);
    assert d[|d| - 1] == e[|e| - 1];
    if m >= 10 {
      assert d[..|d| - 1] == Decimal(m / 10);
      assert e[..|e| - 1] == Decimal(n / 10);
      DecimalInjective(m / 10, n / 10);
    }
  }

  /** An inspector endpoint is already canonical, and it identifies its port. */
  lemma InspectorCanon(port: nat)
    ensures Normalize(InspectorEndpoint(port)) == InspectorEndpoint(port)
    ensures Canon(InspectorEndpoint(port)) == InspectorEndpoint(port)
  {
    var e := InspectorEndpoint(port);
    DecimalDigits(port);
    assert e[|e| - 1] == Decimal(port)[|Decimal(port)| - 1];
    assert e[0] == 'h' && SchemeAt(e, 4);
  }

  lemma InspectorInjective(p: nat, q: nat)
    requires InspectorEndpoint(p) == InspectorEndpoint(q)
    ensures p == q
  {
    var prefix := "http://127.0.0.1:";
    assert Decimal(p) == InspectorEndpoint(p)[|prefix|..];
    assert Decimal(q) == InspectorEndpoint(q)[|prefix|..];
    DecimalInjective(p, q);
  }
}
