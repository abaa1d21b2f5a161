/** JSON values, `json_eq`, and JSON merge patch (section 2 of RFC 7396). */
module Json {
  import opened Text

  /** `serde_json::Number`: an unsigned, a negative or a floating number. */
  datatype Number = PosInt(n: nat) | NegInt(k: int) | Float(r: real)

  datatype Json =
    | Null
    | Bool(b: bool)
    | Num(num: Number)
    | Str(s: string)
    | Arr(items: seq<Json>)
    | Obj(fields: map<string, Json>)

  /** `n / 2^e` rounded to the nearest integer, ties to even. */
  function RoundedQuotient(n: nat, e: nat): nat {
    var d := Pow2(e);
    var q, m := n / d, n % d;
    if 2 * m < d || (2 * m == d && q % 2 == 0) then q else q + 1
  }

  /** How many low bits an integer loses in a 53-bit significand. */
  function LostBits(n: nat): nat {
    if n < 0x20_0000_0000_0000 then 0 else 1 + LostBits(n / 2)
  }

  function NatAsF64(n: nat): real {
    (RoundedQuotient(n, LostBits(n)) * Pow2(LostBits(n))) as real
  }

  /** `Number::as_f64`. */
  function AsF64(n: Number): real {
    match n
    case PosInt(n) => NatAsF64(n)
    case NegInt(k) => if k < 0 then -NatAsF64(-k) else NatAsF64(k)
    case Float(r) => r
  }

  /** `json_eq`: numbers by value; objects by length, then one direction of
      key lookups. */
  predicate JsonEq(a: Json, b: Json)
    decreases a
  {
    match (a, b)
    case (Num(x), Num(y)) => AsF64(x) == AsF64(y)
    case (Arr(x), Arr(y)) => |x| == |y| && forall i | 0 <= i < |x| :: JsonEq(x[i], y[i])
    case (Obj(x), Obj(y)) => |x| == |y| && forall k | k in x :: k in y && JsonEq(x[k], y[k])
    case _ => a == b
  }

  /** Every key of `x` is a key of `y` and they are equally many, so they are
      the same keys. */
  lemma OneDirectionSuffices(x: map<string, Json>, y: map<string, Json>)
    requires |x| == |y| && forall k | k in x :: k in y
    ensures x.Keys == y.Keys
  {
    assert x.Keys <= y.Keys;
    assert |y.Keys - x.Keys| == |y.Keys| - |x.Keys|;
  }

  lemma {:induction false} JsonEqReflexive(a: Json)
    ensures JsonEq(a, a)
    decreases a
  {
    match a
    case Arr(x) => forall i | 0 <= i < |x| ensures JsonEq(x[i], x[i]) { JsonEqReflexive(x[i]); }
    case Obj(x) => forall k | k in x ensures JsonEq(x[k], x[k]) { JsonEqReflexive(x[k]); }
    case _ =>
  }

  lemma {:induction false} JsonEqSymmetric(a: Json, b: Json)
    requires JsonEq(a, b)
    ensures JsonEq(b, a)
    decreases a
  {
    match (a, b)
    case (Arr(x), Arr(y)) =>
      forall i | 0 <= i < |x| ensures JsonEq(y[i], x[i]) { JsonEqSymmetric(x[i], y[i]); }
    case (Obj(x), Obj(y)) =>
      OneDirectionSuffices(x, y);
      forall k | k in y ensures k in x && JsonEq(y[k], x[k]) { JsonEqSymmetric(x[k], y[k]); }
    case _ =>
  }

  lemma {:induction false} JsonEqTransitive(a: Json, b: Json, c: Json)
    requires JsonEq(a, b) && JsonEq(b, c)
    ensures JsonEq(a, c)
    decreases a
  {
    match (a, b, c)
    case (Arr(x), Arr(y), Arr(z)) =>
      forall i | 0 <= i < |x| ensures JsonEq(x[i], z[i]) { JsonEqTransitive(x[i], y[i], z[i]); }
    case (Obj(x), Obj(y), Obj(z)) =>
      forall k | k in x ensures k in z && JsonEq(x[k], z[k]) { JsonEqTransitive(x[k], y[k], z[k]); }
    case _ =>
  }

  lemma SmallExact(n: nat)
    requires n < 0x20_0000_0000_0000
    ensures NatAsF64(n) == n as real
  {
    assert LostBits(n) == 0 && Pow2(0) == 1;
    assert n / 1 == n && n % 1 == 0;
  }

  /** Numbers are equal by value: integers below 2^53 exactly when they are the
      same integer, and each equals the float of its value and no other float. */
  lemma NumbersByValue(m: nat, n: nat, r: real)
    requires m < 0x20_0000_0000_0000 && n < 0x20_0000_0000_0000
    ensures JsonEq(Num(PosInt(m)), Num(PosInt(n))) <==> m == n
    ensures JsonEq(Num(NegInt(-(m as int))), Num(NegInt(-(n as int)))) <==> m == n
    ensures JsonEq(Num(PosInt(m)), Num(NegInt(-(n as int)))) <==> m == 0 && n == 0
    ensures JsonEq(Num(PosInt(m)), Num(Float(r))) <==> r == m as real
    ensures JsonEq(Num(NegInt(-(m as int))), Num(Float(r))) <==> r == -(m as real)
  {
    SmallExact(m);
    SmallExact(n);
  }

  /** From 2^53 on neighbours can be the same number. */
  lemma LargeNumbersRound()
    ensures JsonEq(Num(PosInt(0x20_0000_0000_0000)), Num(PosInt(0x20_0000_0000_0001)))
    ensures !JsonEq(Num(PosInt(0x20_0000_0000_0000)), Num(PosInt(0x20_0000_0000_0002)))
  {
    assert Pow2(1) == 2 * Pow2(0) && Pow2(0) == 1;
    assert LostBits(0x10_0000_0000_0000) == 0 && LostBits(0x10_0000_0000_0001) == 0;
  }

  /** `value[key]` of serde_json: null when there is nothing there. */
  function Get(v: Json, key: string): Json {
    if v.Obj? && key in v.fields then v.fields[key] else Null
  }

  function Item(v: Json, i: nat): Json {
    if v.Arr? && i < |v.items| then v.items[i] else Null
  }

  /** Looking a key or an index up respects `json_eq`. */
  lemma LookupsAgree(a: Json, b: Json, key: string, i: nat)
    requires JsonEq(a, b)
    ensures JsonEq(Get(a, key), Get(b, key)) && JsonEq(Item(a, i), Item(b, i))
    ensures a.Obj? <==> b.Obj?
    ensures a.Obj? ==> (key in a.fields <==> key in b.fields)
    ensures a.Arr? <==> b.Arr?
    ensures a.Arr? ==> |a.items| == |b.items|
  {
    if a.Obj? && b.Obj? {
      OneDirectionSuffices(a.fields, b.fields);
    }
  }

  // ---- Merge patch ----

  /** `MergePatch(Target, Patch)`, section 2 of RFC 7396. */
  function MergePatch(target: Json, patch: Json): Json
    decreases patch
  {
    if !patch.Obj? then patch
    else
      var t, p := if target.Obj? then target.fields else map[], patch.fields;
      Obj(map k | k in t.Keys + p.Keys && !(k in p && p[k].Null?) ::
            if k in p then MergePatch(if k in t then t[k] else Null, p[k]) else t[k])
  }

  /** Key by key: a null removes, an absent key leaves alone, anything else is
      merged into what was there. */
  lemma MergePatchMeans(target: Json, patch: Json, key: string)
    requires patch.Obj?
    ensures var after := MergePatch(target, patch); var had := Get(target, key);
      && after.Obj?
      && (key !in patch.fields ==> Get(after, key) == had && (key in after.fields <==> target.Obj? && key in target.fields))
      && (key in patch.fields && patch.fields[key].Null? ==> key !in after.fields)
      && (key in patch.fields && !patch.fields[key].Null? ==> key in after.fields && after.fields[key] == MergePatch(had, patch.fields[key]))
  {
  }

  predicate NoNulls(v: Json) {
    match v
    case Null => false
    case Obj(m) => forall k | k in m :: NoNulls(m[k])
    case _ => true
  }

  /** The document already holds everything the patch would write. */
  predicate Contains(doc: Json, patch: Json)
    decreases patch
  {
    if patch.Obj? then doc.Obj? && forall k | k in patch.fields :: k in doc.fields && Contains(doc.fields[k], patch.fields[k])
    else doc == patch
  }

  /** A patch without nulls holds afterwards. */
  lemma {:induction false} PatchHolds(doc: Json, patch: Json)
    requires NoNulls(patch)
    ensures Contains(MergePatch(doc, patch), patch)
    decreases patch
  {
    if patch.Obj? {
      var t := if doc.Obj? then doc.fields else map[];
      var after := MergePatch(doc, patch);
      forall k | k in patch.fields ensures k in after.fields && Contains(after.fields[k], patch.fields[k]) {
        assert !patch.fields[k].Null?;
        PatchHolds(if k in t then t[k] else Null, patch.fields[k]);
      }
    }
  }

  /** Applying it again changes nothing. */
  lemma {:induction false} PatchIdempotent(doc: Json, patch: Json)
    requires Contains(doc, patch) && NoNulls(patch)
    ensures MergePatch(doc, patch) == doc
    decreases patch
  {
    if patch.Obj? {
      var after := MergePatch(doc, patch);
      forall k | k in patch.fields ensures after.fields[k] == doc.fields[k] {
        PatchIdempotent(doc.fields[k], patch.fields[k]);
      }
      assert after.fields.Keys == doc.fields.Keys;
    }
  }
}
