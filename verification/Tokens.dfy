/**
  Operate tokens: minting, revoking and deleting records in the file store, and
  deciding whether a bearer is accepted for a tunnel.
 */
module Tokens {
  import opened Text
  import opened Base64Url

  // ---- Comparing digests ----

  /** Bitwise exclusive-or and or of bytes, bit by bit. */
  function Xor(x: nat, y: nat): nat {
    if x == 0 && y == 0 then 0 else (if x % 2 == y % 2 then 0 else 1) + 2 * Xor(x / 2, y / 2)
  }

  function Or(x: nat, y: nat): nat {
    if x == 0 && y == 0 then 0 else (if x % 2 == 1 || y % 2 == 1 then 1 else 0) + 2 * Or(x / 2, y / 2)
  }

  lemma {:induction false} XorZero(x: nat, y: nat)
    ensures Xor(x, y) == 0 <==> x == y
  {
    if x != 0 || y != 0 {
      XorZero(x / 2, y / 2);
    }
  }

  lemma {:induction false} OrZero(x: nat, y: nat)
    ensures Or(x, y) == 0 <==> x == 0 && y == 0
  {
    if x != 0 || y != 0 {
      OrZero(x / 2, y / 2);
    }
  }

  /** `constant_time_eq`: the XOR fold decides equality. */
  method ConstantTimeEq(a: seq<byte>, b: seq<byte>) returns (eq: bool)
    ensures eq <==> a == b
  {
    if |a| != |b| {
      return false;
    }
    var diff := 0;
    for i := 0 to |a|
      invariant diff == 0 <==> a[..i] == b[..i]
    {
      XorZero(a[i], b[i]);
      OrZero(diff, Xor(a[i], b[i]));
      assert a[..i + 1] == a[..i] + [a[i]] && b[..i + 1] == b[..i] + [b[i]];
      diff := Or(diff, Xor(a[i], b[i]));
    }
    eq := diff == 0;
    assert a[..|a|] == a && b[..|b|] == b;
  }

  // ---- Bearers ----

  /** `split_once('.')`. */
  function SplitOnce(s: string): Option<(string, string)> {
    if s == "" then None
    else if s[0] == '.' then Some(("", s[1..]))
    else
      var r := SplitOnce(s[1..]);
      if r.None? then None else Some(([s[0]] + r.value.0, r.value.1))
  }

  /** Splitting inverts joining exactly for ids without a dot. */
  lemma {:induction false} SplitInvertsJoin(s: string, id: string, secret: string)
    requires '.' !in id
    ensures SplitOnce(s) == Some((id, secret)) <==> s == id + "." + secret
  {
    if s == "" {
    } else if s[0] == '.' {
      assert s == "." + s[1..];
      if id != "" {
        assert (id + "." + secret)[0] == id[0];
      } else {
        assert (id + "." + secret)[1..] == secret;
      }
    } else if id != "" {
      SplitInvertsJoin(s[1..], id[1..], secret);
      var r, joined := SplitOnce(s[1..]), id + "." + secret;
      assert id == [id[0]] + id[1..] && s == [s[0]] + s[1..];
      assert joined == [id[0]] + (id[1..] + "." + secret);
      assert joined[1..] == id[1..] + "." + secret;
      if r.Some? && SplitOnce(s) == Some((id, secret)) {
        assert ([s[0]] + r.value.0)[1..] == r.value.0;
      }
    } else {
      assert (id + "." + secret)[0] == '.';
      assert SplitOnce(s).Some? ==> SplitOnce(s).value.0 != "";
    }
  }

  // ---- Expiry ----

  const U64_MAX: nat := 0xFFFF_FFFF_FFFF_FFFF

  function SaturatingMillis(ttl: nat): nat {
    if ttl * 1000 > U64_MAX then U64_MAX else ttl * 1000
  }

  /** The stored expiry: the sum wraps at 64 bits. */
  function Expiry(now: nat, ttl: Option<nat>): Option<nat> {
    if ttl.None? then None else Some((now + SaturatingMillis(ttl.value)) % (U64_MAX + 1))
  }

  /** The stored expiry is the intended one exactly when the sum fits; when it
      does not, the token is past its expiry from the start. */
  lemma ExpiryExact(now: nat, ttl: nat)
    requires now <= U64_MAX
    ensures Expiry(now, Some(ttl)) == Some(now + SaturatingMillis(ttl)) <==> now + SaturatingMillis(ttl) <= U64_MAX
    ensures now + SaturatingMillis(ttl) > U64_MAX <==> Expiry(now, Some(ttl)).value < now
  {
    var sum := now + SaturatingMillis(ttl);
    if sum > U64_MAX {
      assert sum % (U64_MAX + 1) == sum - (U64_MAX + 1);
    }
  }

  /** A time to live is in seconds: when the moment fits in 64 bits, that is
      what is stored. */
  lemma TtlInSeconds(now: nat, ttl: nat)
    requires now + 1000 * ttl <= 0xFFFF_FFFF_FFFF_FFFF
    ensures Expiry(now, Some(ttl)) == Some(now + 1000 * ttl)
  {
    assert ttl * 1000 == 1000 * ttl;
  }

  // ---- The store ----

  datatype Record = Record(tunnel: string, salt: string, hash: string, expires: Option<nat>, revoked: bool)

  datatype Place = Place(tunnel: string, id: string)

  /** What was handed out: the ghost truth behind a record. */
  datatype Minted = Minted(tunnel: string, secret: string, salt: seq<byte>, expires: Option<nat>)

  datatype Op =
    | Mint(tunnel: string, idBytes: seq<byte>, secretBytes: seq<byte>, salt: seq<byte>, ttl: Option<nat>)
    | Revoke(tunnel: string, id: string)
    | DeleteAll(tunnel: string)
    | Tick(later: nat)

  /** The operation draws this token id. */
  predicate Draws(op: Op, id: string) {
    op.Mint? && Encode(op.idBytes) == id
  }

  type Digest = (seq<byte>, string) -> seq<byte>

  ghost predicate Injective(hash: Digest) {
    forall salt, s, t :: hash(salt, s) == hash(salt, t) ==> s == t
  }

  function RecordOf(m: Minted, hash: Digest, revoked: bool): Record {
    Record(m.tunnel, Encode(m.salt), Encode(hash(m.salt, m.secret)), m.expires, revoked)
  }

  /** The file is the record of the token minted under its id. */
  predicate FileOk(p: Place, r: Record, minted: map<string, Minted>, revoked: set<string>, hash: Digest) {
    p.id in minted && minted[p.id].tunnel == p.tunnel && r == RecordOf(minted[p.id], hash, p.id in revoked)
  }

  /** Every file is such a record, and every token not deleted has one. */
  predicate FilesOk(files: map<Place, Record>, minted: map<string, Minted>, revoked: set<string>, deleted: set<string>, hash: Digest) {
    && (forall p | p in files :: FileOk(p, files[p], minted, revoked, hash))
    && (forall id | id in minted :: '.' !in id && (Place(minted[id].tunnel, id) in files <==> id !in deleted))
  }

  lemma RevokingKeeps(files: map<Place, Record>, minted: map<string, Minted>, revoked: set<string>, deleted: set<string>, hash: Digest, p: Place)
    requires FilesOk(files, minted, revoked, deleted, hash) && p in files
    ensures FilesOk(files[p := files[p].(revoked := true)], minted, revoked + {p.id}, deleted, hash)
  {
    assert FileOk(p, files[p], minted, revoked, hash);
    var files' := files[p := files[p].(revoked := true)];
    forall q | q in files' ensures FileOk(q, files'[q], minted, revoked + {p.id}, hash) {
      assert q in files && FileOk(q, files[q], minted, revoked, hash);
      assert q != p ==> q.id != p.id;
    }
  }

  /** Removing files of one tunnel deletes their tokens and no others. */
  lemma RemovingKeeps(files: map<Place, Record>, minted: map<string, Minted>, revoked: set<string>, deleted: set<string>, hash: Digest,
                      gone: set<Place>, tunnel: string)
    requires FilesOk(files, minted, revoked, deleted, hash) && forall p | p in gone :: p in files && p.tunnel == tunnel
    ensures FilesOk(files - gone, minted, revoked, deleted + (set p | p in gone :: p.id), hash)
    ensures forall p | p in gone :: p.id in minted && minted[p.id].tunnel == tunnel
  {
    forall p | p in gone ensures p.id in minted && minted[p.id].tunnel == tunnel {
      assert FileOk(p, files[p], minted, revoked, hash);
    }
    var dead := set p | p in gone :: p.id;
    forall id | id in minted ensures Place(minted[id].tunnel, id) in files - gone <==> id !in deleted + dead {
      assert Place(minted[id].tunnel, id) in gone <==> id in dead;
    }
  }

  class TokenStore {
    const hash: Digest
    var files: map<Place, Record>
    var now: nat
    ghost var minted: map<string, Minted>
    ghost var revoked: set<string>
    ghost var deleted: set<string>
    ghost var faults: nat    // file operations that failed

    ghost predicate Valid()
      reads this
    {
      && Injective(hash) && revoked <= minted.Keys && deleted <= minted.Keys
      && FilesOk(files, minted, revoked, deleted, hash)
    }

    /** The token is neither revoked, deleted nor past its expiry. */
    ghost predicate Live(id: string)
      reads this
    {
      && id in minted && id !in revoked && id !in deleted
      && (minted[id].expires.None? || now <= minted[id].expires.value)
    }

    constructor (hash: Digest, now: nat)
      requires Injective(hash)
      ensures Valid() && this.hash == hash && this.now == now && files == map[] && minted == map[]
    {
      this.hash, this.now, files := hash, now, map[];
      minted, revoked, deleted, faults := map[], {}, {}, 0;
    }

    method Fails() returns (failed: bool)
      modifies `faults
      ensures faults == old(faults) + if failed then 1 else 0
    {
      failed := *;
      faults := faults + if failed then 1 else 0;
    }

    /** `mint_operate_token`; the random id repeats none drawn before. */
    method MintToken(tunnel: string, idBytes: seq<byte>, secretBytes: seq<byte>, salt: seq<byte>, ttl: Option<nat>)
      returns (bearer: Option<string>)
      requires Valid() && Encode(idBytes) !in minted
      modifies this
      ensures Valid() && now == old(now) && revoked == old(revoked) && deleted == old(deleted)
      ensures bearer.Some? ==> (bearer.value == Encode(idBytes) + "." + Encode(secretBytes)
        && minted == old(minted)[Encode(idBytes) := Minted(tunnel, Encode(secretBytes), salt, Expiry(now, ttl))])
      ensures bearer.None? ==> minted == old(minted)
      ensures faults >= old(faults) && (bearer.Some? <==> faults == old(faults))
    {
      var id, secret := Encode(idBytes), Encode(secretBytes);
      RoundTrip(idBytes);
      var failed := Fails();
      if failed {
        return None;
      }
      var m := Minted(tunnel, secret, salt, Expiry(now, ttl));
      files := files[Place(tunnel, id) := RecordOf(m, hash, false)];
      minted := minted[id := m];
      bearer := Some(id + "." + secret);
    }

    /** `revoke_operate_token`: flips the flag; reports whether there was one. */
    method RevokeToken(tunnel: string, id: string) returns (found: Option<bool>)
      requires Valid()
      modifies this
      ensures Valid() && now == old(now) && minted == old(minted) && deleted == old(deleted)
      ensures found == Some(true) ==> id in minted && minted[id].tunnel == tunnel && revoked == old(revoked) + {id}
      ensures found == Some(false) ==> id !in minted || minted[id].tunnel != tunnel || id in deleted
      ensures found != Some(true) ==> revoked == old(revoked)
      ensures faults >= old(faults) && (found.Some? <==> faults == old(faults))
    {
      var p := Place(tunnel, id);
      var failed := Fails();
      if failed {
        return None;
      }
      if p !in files {
        return Some(false);
      }
      assert FileOk(p, files[p], minted, revoked, hash);
      Flip(p);
      found := Some(true);
    }

    /** Rewrite the record as revoked. */
    method Flip(p: Place)
      requires Valid() && p in files && p.id in minted
      modifies `files, `revoked
      ensures Valid() && revoked == old(revoked) + {p.id}
      ensures files == old(files)[p := old(files)[p].(revoked := true)]
    {
      RevokingKeeps(files, minted, revoked, deleted, hash, p);
      files := files[p := files[p].(revoked := true)];
      revoked := revoked + {p.id};
    }

    /** `delete_tokens_for_tunnel`: best effort, so any part of the directory may
        remain. */
    method DeleteTokens(tunnel: string) returns (complete: bool)
      requires Valid()
      modifies this
      ensures Valid() && now == old(now) && minted == old(minted) && revoked == old(revoked)
      ensures deleted >= old(deleted) && forall id | id in deleted && id !in old(deleted) :: minted[id].tunnel == tunnel
      ensures complete ==> forall id | id in minted && minted[id].tunnel == tunnel :: id in deleted
    {
      var left: set<Place> := *;
      var gone := set p | p in files && p.tunnel == tunnel && p !in left;
      complete := left == {};
      RemovingKeeps(files, minted, revoked, deleted, hash, gone, tunnel);
      files := files - gone;
      deleted := deleted + (set p | p in gone :: p.id);
    }

    /** Time passes. */
    method Pass(later: nat)
      requires Valid()
      modifies `now
      ensures Valid() && now == old(now) + later
    {
      now := now + later;
    }

    /** `validate_operate_secret`. */
    method ValidateSecret(tunnel: string, id: string, secret: string) returns (ok: bool)
      requires Valid()
      ensures ok <==> Live(id) && minted[id].tunnel == tunnel && minted[id].secret == secret
    {
      var p := Place(tunnel, id);
      if p !in files {
        return false;
      }
      assert FileOk(p, files[p], minted, revoked, hash);
      var record := files[p];
      if record.tunnel != tunnel || record.revoked {
        return false;
      }
      if record.expires.Some? && now > record.expires.value {
        return false;
      }
      RoundTrip(minted[id].salt);
      RoundTrip(hash(minted[id].salt, minted[id].secret));
      var salt, expected := Decode(record.salt), Decode(record.hash);
      if salt.None? || expected.None? {
        return false;
      }
      ok := ConstantTimeEq(hash(salt.value, secret), expected.value);
    }

    /** The bearer was minted for this tunnel and its token is live. */
    ghost predicate Good(tunnel: string, bearer: string)
      reads this
    {
      exists id | id in minted :: Live(id) && minted[id].tunnel == tunnel && bearer == id + "." + minted[id].secret
    }

    /** The operate branch of the gate: a bearer is accepted for a tunnel exactly
        when it was minted for it and is neither revoked, deleted nor expired. */
    method Authorize(tunnel: string, bearer: string) returns (ok: bool)
      requires Valid()
      ensures ok <==> Good(tunnel, bearer)
    {
      forall id | id in minted
        ensures SplitOnce(bearer) == Some((id, minted[id].secret)) <==> bearer == id + "." + minted[id].secret {
        SplitInvertsJoin(bearer, id, minted[id].secret);
      }
      var split := SplitOnce(bearer);
      if split.None? {
        return false;
      }
      ok := ValidateSecret(tunnel, split.value.0, split.value.1);
    }

    /** A token with a time to live, presented after a while, is accepted exactly
        until that time is over (if the moment fits in 64 bits), one without is
        accepted for ever; for another tunnel it never is. */
    method MintWaitPresent(tunnel: string, idBytes: seq<byte>, secretBytes: seq<byte>, salt: seq<byte>, ttl: Option<nat>, later: nat, other: string)
      returns (minted: bool, ok: bool, elsewhere: bool)
      requires Valid() && Encode(idBytes) !in this.minted && other != tunnel
      modifies this
      ensures minted && ttl.None? ==> ok
      ensures minted && ttl.Some? && old(now) + 1000 * ttl.value <= 0xFFFF_FFFF_FFFF_FFFF ==> (ok <==> later <= 1000 * ttl.value)
      ensures minted ==> !elsewhere
    {
      minted, ok, elsewhere := false, false, false;
      var bearer := MintToken(tunnel, idBytes, secretBytes, salt, ttl);
      if bearer.None? {
        return;
      }
      if ttl.Some? && now + 1000 * ttl.value <= 0xFFFF_FFFF_FFFF_FFFF {
        TtlInSeconds(now, ttl.value);
      }
      Pass(later);
      RoundTrip(idBytes);
      OnlyItsOwn(tunnel, bearer.value, Encode(idBytes), Encode(secretBytes));
      OnlyItsOwn(other, bearer.value, Encode(idBytes), Encode(secretBytes));
      minted := true;
      ok := Authorize(tunnel, bearer.value);
      elsewhere := Authorize(other, bearer.value);
    }

    /** A bearer names one id, so it is good exactly if that token is. */
    lemma OnlyItsOwn(tunnel: string, bearer: string, id: string, secret: string)
      requires Valid() && '.' !in id && bearer == id + "." + secret
      ensures Good(tunnel, bearer) <==> Live(id) && minted[id].tunnel == tunnel && minted[id].secret == secret
    {
      SplitInvertsJoin(bearer, id, secret);
      if Good(tunnel, bearer) {
        var i :| i in minted && Live(i) && minted[i].tunnel == tunnel && bearer == i + "." + minted[i].secret;
        SplitInvertsJoin(bearer, i, minted[i].secret);
      }
    }

    /** Any run: a minted token that stopped being live stays so, and no other
        operation brings a token to life. */
    method Serve(ops: seq<Op>)
      requires Valid()
      requires forall i, id | 0 <= i < |ops| && Draws(ops[i], id) :: id !in minted
      requires forall i, j, id | 0 <= i < j < |ops| && Draws(ops[i], id) :: !Draws(ops[j], id)
      modifies this
      ensures Valid() && old(minted).Keys <= minted.Keys
      ensures forall id | id in old(minted) && !old(Live(id)) :: !Live(id)
    {
      for i := 0 to |ops|
        invariant Valid() && old(now) <= now && old(revoked) <= revoked && old(deleted) <= deleted
        invariant forall id | id in old(minted) :: id in minted && minted[id] == old(minted)[id]
        invariant forall id | id in minted && id !in old(minted) :: exists j :: 0 <= j < i && Draws(ops[j], id)
      {
        match ops[i]
        case Mint(tunnel, id, secret, salt, ttl) =>
          assert Draws(ops[i], Encode(id));
          var _ := MintToken(tunnel, id, secret, salt, ttl);
        case Revoke(tunnel, id) => var _ := RevokeToken(tunnel, id);
        case DeleteAll(tunnel) => var _ := DeleteTokens(tunnel);
        case Tick(later) => Pass(later);
      }
    }
  }
}
