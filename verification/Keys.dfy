/**
  Listen keys: the key files under the repo directory, the migration of the
  legacy key, and the one key a tunnel keeps through its life.
 */
module Keys {
  import opened Text

  type Key = nat

  datatype Tunnel = Tunnel(project: string, name: string)

  /** Where a key file lives: `listen_key` at the root, `listen_key.<suffix>`,
      `<project>/listen_key` and `<project>/<tunnel>/listen_key`. */
  datatype Place = Legacy | Stamped(suffix: string) | OfProject(project: string) | OfTunnel(tunnel: Tunnel)

  datatype Lookup = Found(key: Key) | KeyNotFound | IoError

  datatype Op =
    | NewListenKey(suffix: string)
    | ProjectKey(project: string)
    | BeginStart(tunnel: Tunnel)
    | FinishStart(tunnel: Tunnel)
    | AbandonStart(tunnel: Tunnel)
    | DeleteTunnel(tunnel: Tunnel)

  predicate OnceEach(files: map<Place, Key>) {
    forall a, b | a in files && b in files && files[a] == files[b] :: a == b
  }

  /** No key is on file twice, or on file and held, or held twice; all were
      drawn; a tunnel with a held key has none on file. */
  predicate KeysDistinct(files: map<Place, Key>, held: map<Tunnel, Key>, next: Key) {
    && OnceEach(files)
    && (forall a | a in files :: files[a] < next)
    && (forall t | t in held :: held[t] < next && OfTunnel(t) !in files)
    && (forall t, a | t in held && a in files :: held[t] != files[a])
    && (forall t, u | t in held && u in held && held[t] == held[u] :: t == u)
  }

  predicate Somewhere(files: map<Place, Key>, key: Key) {
    exists a | a in files :: files[a] == key
  }

  /** The legacy key is never in a timestamped file and never held; it is on file
      exactly until its place is deleted, and then gone for good. */
  predicate LegacyKept(files: map<Place, Key>, held: map<Tunnel, Key>, legacy: Key, deleted: bool) {
    && (forall t | t in held :: held[t] != legacy)
    && (forall a | a in files && files[a] == legacy :: !a.Stamped?)
    && (deleted <==> !Somewhere(files, legacy))
  }

  /** Everything the repo keeps true. A tunnel's saved key is the one on file. */
  predicate Inv(files: map<Place, Key>, held: map<Tunnel, Key>, next: Key, legacy: Option<Key>, deleted: bool, saved: map<Tunnel, Key>) {
    && KeysDistinct(files, held, next)
    && (legacy.Some? ==> legacy.value < next && LegacyKept(files, held, legacy.value, deleted))
    && (forall t | t in saved :: OfTunnel(t) in files && files[OfTunnel(t)] == saved[t])
  }

  // ---- What each change keeps ----

  lemma WritingKeepsLegacy(files: map<Place, Key>, held: map<Tunnel, Key>, legacy: Key, deleted: bool, a: Place, key: Key)
    requires LegacyKept(files, held, legacy, deleted) && key != legacy && (a in files ==> files[a] != legacy)
    ensures LegacyKept(files[a := key], held, legacy, deleted)
  {
    if !deleted {
      var home :| home in files && files[home] == legacy;
      assert home in files[a := key] && files[a := key][home] == legacy;
    } else {
      assert forall b | b in files[a := key] :: b == a || b in files;
    }
  }

  /** Write a key drawn just now outside the tunnel directories. */
  lemma WritingKeeps(files: map<Place, Key>, held: map<Tunnel, Key>, next: Key, legacy: Option<Key>, deleted: bool,
                     saved: map<Tunnel, Key>, a: Place)
    requires Inv(files, held, next, legacy, deleted, saved) && !a.OfTunnel?
    requires legacy.Some? && a in files ==> files[a] != legacy.value
    ensures Inv(files[a := next], held, next + 1, legacy, deleted, saved)
    ensures Inv(files, held, next + 1, legacy, deleted, saved)
  {
    if legacy.Some? {
      WritingKeepsLegacy(files, held, legacy.value, deleted, a, next);
    }
  }

  /** Hold a key drawn just now for a tunnel that has none on file. */
  lemma HoldingKeeps(files: map<Place, Key>, held: map<Tunnel, Key>, next: Key, legacy: Option<Key>, deleted: bool,
                     saved: map<Tunnel, Key>, t: Tunnel)
    requires Inv(files, held, next, legacy, deleted, saved) && OfTunnel(t) !in files && t !in held
    ensures Inv(files, held[t := next], next + 1, legacy, deleted, saved)
  {
  }

  /** A held key is given up, or saved as its tunnel's key. */
  lemma ReleasingKeeps(files: map<Place, Key>, held: map<Tunnel, Key>, next: Key, legacy: Option<Key>, deleted: bool,
                       saved: map<Tunnel, Key>, t: Tunnel)
    requires Inv(files, held, next, legacy, deleted, saved) && t in held
    ensures Inv(files, held - {t}, next, legacy, deleted, saved) && t !in saved
  {
  }

  lemma SavingKeeps(files: map<Place, Key>, held: map<Tunnel, Key>, next: Key, legacy: Option<Key>, deleted: bool,
                    saved: map<Tunnel, Key>, t: Tunnel)
    requires Inv(files, held, next, legacy, deleted, saved) && t in held
    ensures Inv(files[OfTunnel(t) := held[t]], held - {t}, next, legacy, deleted, saved[t := held[t]])
  {
    if legacy.Some? {
      WritingKeepsLegacy(files, held, legacy.value, deleted, OfTunnel(t), held[t]);
    }
  }

  function Moved(files: map<Place, Key>, a: Place): map<Place, Key>
    requires Legacy in files
  {
    (files - {Legacy})[a := files[Legacy]]
  }

  /** Each file after the move was a file before it. */
  function Before(b: Place, a: Place): Place {
    if b == a then Legacy else b
  }

  lemma MovingKeepsLegacy(files: map<Place, Key>, held: map<Tunnel, Key>, legacy: Key, deleted: bool, a: Place)
    requires LegacyKept(files, held, legacy, deleted) && Legacy in files && a !in files && !a.Stamped?
    ensures LegacyKept(Moved(files, a), held, legacy, deleted)
  {
    if !deleted {
      var home :| home in files && files[home] == legacy;
      var now := if home == Legacy then a else home;
      assert now in Moved(files, a) && Moved(files, a)[now] == legacy;
    } else {
      assert forall b | b in Moved(files, a) :: Before(b, a) in files && Moved(files, a)[b] == files[Before(b, a)];
    }
  }

  lemma MovingKeeps(files: map<Place, Key>, held: map<Tunnel, Key>, next: Key, legacy: Option<Key>, deleted: bool,
                    saved: map<Tunnel, Key>, a: Place)
    requires Inv(files, held, next, legacy, deleted, saved)
    requires Legacy in files && a !in files && !a.Stamped? && (a.OfTunnel? ==> a.tunnel !in held)
    ensures Inv(Moved(files, a), held, next, legacy, deleted, saved)
  {
    assert forall b | b in Moved(files, a) :: Before(b, a) in files && Moved(files, a)[b] == files[Before(b, a)];
    if legacy.Some? {
      MovingKeepsLegacy(files, held, legacy.value, deleted, a);
    }
  }

  lemma DroppingKeeps(files: map<Place, Key>, held: map<Tunnel, Key>, next: Key, legacy: Option<Key>, deleted: bool,
                      saved: map<Tunnel, Key>, t: Tunnel)
    requires Inv(files, held, next, legacy, deleted, saved)
    ensures Inv(files - {OfTunnel(t)}, held, next, legacy, deleted || HasLegacy(files, legacy, t), saved - {t})
  {
    if legacy.Some? {
      DroppingKeepsLegacy(files, held, legacy.value, deleted, OfTunnel(t));
    }
  }

  lemma DroppingKeepsLegacy(files: map<Place, Key>, held: map<Tunnel, Key>, legacy: Key, deleted: bool, a: Place)
    requires LegacyKept(files, held, legacy, deleted) && OnceEach(files)
    ensures LegacyKept(files - {a}, held, legacy, deleted || (a in files && files[a] == legacy))
  {
    if !deleted && !(a in files && files[a] == legacy) {
      var home :| home in files && files[home] == legacy;
      assert home in files - {a} && (files - {a})[home] == legacy;
    }
  }

  /** The legacy key is this tunnel's key. */
  predicate HasLegacy(files: map<Place, Key>, legacy: Option<Key>, t: Tunnel) {
    legacy.Some? && OfTunnel(t) in files && files[OfTunnel(t)] == legacy.value
  }

  /** One of the first `n` operations deletes the tunnel. */
  predicate Deletes(ops: seq<Op>, n: nat, t: Tunnel)
    requires n <= |ops|
  {
    n > 0 && (ops[n - 1] == DeleteTunnel(t) || Deletes(ops, n - 1, t))
  }

  /** If the i-th operation is a start of a tunnel with a saved key, not deleted
      so far, the start got that key if any. */
  predicate StartGets(ops: seq<Op>, i: nat, key: Option<Key>, saved: map<Tunnel, Key>)
    requires i < |ops|
  {
    ops[i].BeginStart? && ops[i].tunnel in saved && !Deletes(ops, i, ops[i].tunnel) && key.Some? ==>
      key.value == saved[ops[i].tunnel]
  }

  class Repo {
    var files: map<Place, Key>
    /** Keys generated so far are below this: generation never repeats. */
    var next: Key
    /** Generated keys of starts in flight, not yet saved. */
    var held: map<Tunnel, Key>
    ghost const legacy: Option<Key>       // the legacy key there was at first
    ghost var legacyEnd: Option<Tunnel>   // the tunnel its place was deleted with
    ghost var saved: map<Tunnel, Key>     // the generated key saved in a tunnel's current life
    ghost var faults: nat                 // file operations that failed

    /** No two key files hold the same key; the legacy key lives in one place
        until that place is deleted; a tunnel's saved key is the one on file. */
    ghost predicate Valid()
      reads this
    {
      Inv(files, held, next, legacy, legacyEnd.Some?, saved)
    }

    constructor (files: map<Place, Key>, next: Key)
      requires OnceEach(files) && forall a | a in files :: files[a] < next
      ensures Valid() && this.files == files && held == map[] && saved == map[]
      ensures legacy == if Legacy in files then Some(files[Legacy]) else None
    {
      this.files, this.next, held := files, next, map[];
      legacy := if Legacy in files then Some(files[Legacy]) else None;
      legacyEnd, saved, faults := None, map[], 0;
      assert Legacy in files ==> Somewhere(files, files[Legacy]);
    }

    method Fails() returns (failed: bool)
      modifies `faults
      ensures faults == old(faults) + if failed then 1 else 0
    {
      failed := *;
      faults := faults + if failed then 1 else 0;
    }

    /** Write a new key to `a`. */
    method WriteFresh(a: Place) returns (key: Option<Key>)
      requires Valid() && !a.OfTunnel? && (a in files && legacy.Some? ==> files[a] != legacy.value)
      modifies `files, `next, `faults
      ensures Valid() && next == old(next) + 1
      ensures key.Some? ==> key.value == old(next) && files == old(files)[a := key.value]
      ensures key.None? ==> files == old(files)
      ensures faults >= old(faults) && (key.Some? <==> faults == old(faults))
    {
      WritingKeeps(files, held, next, legacy, legacyEnd.Some?, saved, a);
      var k := next;
      next := next + 1;
      var failed := Fails();
      if failed {
        return None;
      }
      files := files[a := k];
      key := Some(k);
    }

    /** Move the legacy key to `a`; fails when the file is gone by then. */
    method Migrate(a: Place) returns (ok: bool)
      requires Valid() && a !in files && !a.Stamped?
      requires a.OfTunnel? ==> a.tunnel !in held
      modifies `files, `faults
      ensures Valid()
      ensures ok ==> Legacy in old(files) && files == Moved(old(files), a)
      ensures !ok ==> files == old(files)
      ensures faults >= old(faults) && (ok <==> faults == old(faults) && Legacy in old(files))
    {
      var failed := Fails();
      if failed || Legacy !in files {
        return false;
      }
      MovingKeeps(files, held, next, legacy, legacyEnd.Some?, saved, a);
      files := Moved(files, a);
      ok := true;
    }

    /** `listen_key`: always a new key, in a timestamped file. */
    method ListenKey(suffix: string) returns (key: Option<Key>)
      requires Valid()
      modifies this
      ensures Valid() && held == old(held) && saved == old(saved) && legacyEnd == old(legacyEnd)
      ensures key.Some? ==> files == old(files)[Stamped(suffix) := key.value] && key.value !in old(files).Values
      ensures faults >= old(faults) && (key.Some? <==> faults == old(faults))
    {
      key := WriteFresh(Stamped(suffix));
    }

    /** `listen_key_for_project`: the key on file, else the legacy key moved
        here, else a new one. */
    method ListenKeyForProject(project: string) returns (key: Option<Key>)
      requires Valid()
      modifies this
      ensures Valid() && held == old(held) && saved == old(saved) && legacyEnd == old(legacyEnd)
      ensures key.Some? ==> OfProject(project) in files && files[OfProject(project)] == key.value
      ensures OfProject(project) in old(files) ==> files == old(files)
      ensures key.Some? && OfProject(project) !in old(files) ==>
        if Legacy in old(files) then key.value == old(files)[Legacy] && Legacy !in files else key.value !in old(files).Values
      ensures faults >= old(faults) && (faults == old(faults) ==> key.Some?)
    {
      var a := OfProject(project);
      if a !in files && Legacy in files {
        var ok := Migrate(a);
        if !ok {
          return None;
        }
      }
      if a !in files {
        key := WriteFresh(a);
        return;
      }
      var failed := Fails();
      key := if failed then None else Some(files[a]);
    }

    /** `listen_key_for_tunnel`: never generates. */
    method ListenKeyForTunnel(t: Tunnel) returns (r: Lookup)
      requires Valid() && t !in held
      modifies `files, `faults
      ensures Valid()
      ensures r.Found? ==> OfTunnel(t) in files && files[OfTunnel(t)] == r.key
      ensures r.KeyNotFound? <==> OfTunnel(t) !in old(files) && Legacy !in old(files)
      ensures OfTunnel(t) in old(files) || Legacy !in old(files) ==> files == old(files)
      ensures r.Found? && OfTunnel(t) !in old(files) ==> r.key == old(files)[Legacy] && Legacy !in files
      ensures faults >= old(faults) && (r.IoError? <==> faults > old(faults))
    {
      var a := OfTunnel(t);
      if a !in files {
        if Legacy !in files {
          return KeyNotFound;
        }
        var ok := Migrate(a);
        if !ok {
          return IoError;
        }
      }
      var failed := Fails();
      r := if failed then IoError else Found(files[a]);
    }

    /** The first half of a start: the key on file, or a generated one held
        until it is saved. The tunnel is claimed, so it is not held already. */
    method ResolveListenKey(t: Tunnel) returns (key: Option<Key>, rewire: bool)
      requires Valid() && t !in held
      modifies this
      ensures Valid() && saved == old(saved) && legacyEnd == old(legacyEnd)
      ensures rewire ==> key.Some? && held == old(held)[t := key.value] && files == old(files) && key.value !in files.Values
      ensures !rewire ==> held == old(held)
      ensures key.Some? ==> (rewire <==> OfTunnel(t) !in old(files) && Legacy !in old(files))
      ensures key.Some? && OfTunnel(t) in old(files) ==> key == Some(old(files)[OfTunnel(t)]) && !rewire && files == old(files)
      ensures faults >= old(faults) && (key.Some? <==> faults == old(faults))
    {
      var r := ListenKeyForTunnel(t);
      match r
      case Found(k) => return Some(k), false;
      case IoError => return None, false;
      case KeyNotFound =>
        HoldingKeeps(files, held, next, legacy, legacyEnd.Some?, saved, t);
        key, rewire := Some(next), true;
        held := held[t := next];
        next := next + 1;
    }

    /** The second half: save the held key. It is the first generated key of
        this tunnel's life. */
    method SaveListenKey(t: Tunnel) returns (ok: bool)
      requires Valid() && t in held
      modifies this
      ensures Valid() && held == old(held) - {t} && legacyEnd == old(legacyEnd)
      ensures t !in old(saved)
      ensures ok ==> files == old(files)[OfTunnel(t) := old(held)[t]] && saved == old(saved)[t := old(held)[t]]
      ensures !ok ==> files == old(files) && saved == old(saved)
      ensures faults >= old(faults) && (ok <==> faults == old(faults))
    {
      var failed := Fails();
      if failed {
        Abandon(t);
        return false;
      }
      PutSaved(t);
      ok := true;
    }

    /** The held key becomes the one on file. */
    method PutSaved(t: Tunnel)
      requires Valid() && t in held
      modifies `files, `held, `saved
      ensures Valid() && held == old(held) - {t}
      ensures files == old(files)[OfTunnel(t) := old(held)[t]] && saved == old(saved)[t := old(held)[t]]
    {
      SavingKeeps(files, held, next, legacy, legacyEnd.Some?, saved, t);
      files := files[OfTunnel(t) := held[t]];
      saved := saved[t := held[t]];
      held := held - {t};
    }

    /** The start failed before it saved its key. */
    method Abandon(t: Tunnel)
      requires Valid() && t in held
      modifies `held
      ensures Valid() && held == old(held) - {t}
    {
      ReleasingKeeps(files, held, next, legacy, legacyEnd.Some?, saved, t);
      held := held - {t};
    }

    /** `delete_tunnel_dir` ends the tunnel's life. */
    method DeleteTunnelDir(t: Tunnel) returns (ok: bool)
      requires Valid()
      modifies this
      ensures Valid() && held == old(held)
      ensures ok ==> files == old(files) - {OfTunnel(t)} && saved == old(saved) - {t}
      ensures !ok ==> files == old(files) && saved == old(saved)
      ensures legacyEnd == if old(legacyEnd).None? && ok && HasLegacy(old(files), legacy, t) then Some(t) else old(legacyEnd)
      ensures faults >= old(faults) && (ok <==> faults == old(faults))
    {
      var failed := Fails();
      if failed {
        return false;
      }
      DroppingKeeps(files, held, next, legacy, legacyEnd.Some?, saved, t);
      if HasLegacy(files, legacy, t) && legacyEnd.None? {
        legacyEnd := Some(t);
      }
      files, saved := files - {OfTunnel(t)}, saved - {t};
      ok := true;
    }

    /** Every run of these operations, whatever fails, keeps the invariant; a
        second start of a tunnel in flight is refused by its claim. The legacy
        key stays on file until a delete of the tunnel that holds it; a saved
        key stays saved until its tunnel is deleted, and every start of the
        tunnel until then gets it. `keys` lists what each start got. */
    method Serve(ops: seq<Op>) returns (keys: seq<Option<Key>>)
      requires Valid()
      modifies this
      ensures Valid() && |keys| == |ops|
      ensures legacyEnd == old(legacyEnd) || (old(legacyEnd).None? && legacyEnd.Some? && Deletes(ops, |ops|, legacyEnd.value))
      ensures legacy.Some? && old(legacyEnd).None? && (forall t :: !Deletes(ops, |ops|, t)) ==> Somewhere(files, legacy.value)
      ensures forall t | t in old(saved) && !Deletes(ops, |ops|, t) :: t in saved && saved[t] == old(saved)[t] && t !in held
      ensures forall i | 0 <= i < |ops| :: StartGets(ops, i, keys[i], old(saved))
    {
      keys := [];
      for i := 0 to |ops|
        invariant Valid() && |keys| == i
        invariant legacyEnd == old(legacyEnd) || (old(legacyEnd).None? && legacyEnd.Some? && Deletes(ops, i, legacyEnd.value))
        invariant forall t | t in old(saved) && !Deletes(ops, i, t) :: t in saved && saved[t] == old(saved)[t]
        invariant forall j | 0 <= j < i :: StartGets(ops, j, keys[j], old(saved))
      {
        var key := Perform(ops[i]);
        keys := keys + [key];
      }
    }

    /** One operation; `key` is what a start got. */
    method Perform(op: Op) returns (key: Option<Key>)
      requires Valid()
      modifies this
      ensures Valid()
      ensures legacyEnd == old(legacyEnd) || (old(legacyEnd).None? && legacyEnd.Some? && op == DeleteTunnel(legacyEnd.value))
      ensures forall t | t in old(saved) && op != DeleteTunnel(t) :: t in saved && saved[t] == old(saved)[t]
      ensures op.BeginStart? && op.tunnel in old(saved) && key.Some? ==> key.value == old(saved)[op.tunnel]
    {
      key := None;
      match op
      case NewListenKey(suffix) => var _ := ListenKey(suffix);
      case ProjectKey(project) => var _ := ListenKeyForProject(project);
      case DeleteTunnel(t) => var _ := DeleteTunnelDir(t);
      case _ => key := PerformStart(op);
    }

    method PerformStart(op: Op) returns (key: Option<Key>)
      requires Valid() && (op.BeginStart? || op.FinishStart? || op.AbandonStart?)
      modifies this
      ensures Valid() && legacyEnd == old(legacyEnd)
      ensures forall t | t in old(saved) :: t in saved && saved[t] == old(saved)[t]
      ensures op.BeginStart? && op.tunnel in old(saved) && key.Some? ==> key.value == old(saved)[op.tunnel]
    {
      key := None;
      match op
      case BeginStart(t) =>
        if t !in held {
          var rewire;
          key, rewire := ResolveListenKey(t);
        }
      case FinishStart(t) => if t in held { var _ := SaveListenKey(t); }
      case AbandonStart(t) => if t in held { Abandon(t); }
    }

    /** After any operations but a delete of the tunnel, other starts of it
        included, its next start uses the saved key and rewires nothing, and the
        key stays saved for the one after. */
    method LaterStart(t: Tunnel, ops: seq<Op>) returns (key: Option<Key>, rewire: bool)
      requires Valid() && t in saved && !Deletes(ops, |ops|, t)
      modifies this
      ensures Valid() && !rewire && (key.Some? ==> key.value == old(saved)[t])
      ensures t in saved && saved[t] == old(saved)[t] && t !in held
    {
      var _ := Serve(ops);
      key, rewire := ResolveListenKey(t);
    }
  }

  /** What the invariant means for the legacy key: one place exactly, until
      deleted. */
  lemma LegacyInOnePlace(r: Repo)
    requires r.Valid() && r.legacy.Some? && r.legacyEnd.None?
    ensures exists a :: a in r.files && r.files[a] == r.legacy.value && forall b | b in r.files && b != a :: r.files[b] != r.legacy.value
  {
    var a :| a in r.files && r.files[a] == r.legacy.value;
  }
}
