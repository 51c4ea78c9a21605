/** The minted inference keys (internal/openaiapi/keys.go) and the provider that lends one to
    the control plane (internal/node/inference_key.go).  The store is a slice: a backing array
    shared across truncations, with a length. */
module Keys {
  import opened Text
  import opened Wrappers

  /** SHA-256 without collisions. */
  datatype Digest = Sha256(text: string)

  datatype Key = Key(id: string, name: string, sha: Digest, last4: string, createdAt: int, scope: string)

  datatype StoreError = NoRandomness | NotPersisted | KeyNotFound

  const KEY_PREFIX := "silo_sk_"
  const CONTROL_PLANE_SCOPE := "control-plane"
  const CONTROL_PLANE_NAME := "control-plane"

  function Plaintext(secret: string): string {
    KEY_PREFIX + secret
  }

  function NewKey(id: string, name: string, secret: string, now: int, scope: string): Key
    requires |secret| >= 4
  {
    var text := Plaintext(secret);
    Key(id, name, Sha256(text), text[|text| - 4..], now, scope)
  }

  // ----- what the operations do to the list of keys -----

  predicate HasId(keys: seq<Key>, id: string) {
    exists k :: k in keys && k.id == id
  }

  /** Revocation drops the first key with the id and keeps the others in order. */
  function Without(keys: seq<Key>, id: string): seq<Key> {
    if keys == [] then []
    else if keys[0].id == id then keys[1..]
    else [keys[0]] + Without(keys[1..], id)
  }

  function Revoked(keys: seq<Key>, id: string, writes: bool): seq<Key> {
    if writes then Without(keys, id) else keys
  }

  function RevokedAll(keys: seq<Key>, ids: seq<string>, writes: seq<bool>): seq<Key>
    requires |writes| == |ids|
  {
    if ids == [] then keys
    else
      var n := |ids| - 1;
      Revoked(RevokedAll(keys, ids[..n], writes[..n]), ids[n], writes[n])
  }

  /** Some id was there and could not be removed for want of a write. */
  predicate RevocationFailed(keys: seq<Key>, ids: seq<string>, writes: seq<bool>)
    requires |writes| == |ids|
  {
    ids != [] &&
    var n := |ids| - 1;
    RevocationFailed(keys, ids[..n], writes[..n]) || (!writes[n] && HasId(RevokedAll(keys, ids[..n], writes[..n]), ids[n]))
  }

  function Unscoped(keys: seq<Key>): seq<Key> {
    if keys == [] then []
    else if keys[0].scope == CONTROL_PLANE_SCOPE then Unscoped(keys[1..])
    else [keys[0]] + Unscoped(keys[1..])
  }

  function ScopedIds(keys: seq<Key>): seq<string> {
    if keys == [] then []
    else
      var n := |keys| - 1;
      ScopedIds(keys[..n]) + if keys[n].scope == CONTROL_PLANE_SCOPE then [keys[n].id] else []
  }

  /** The secret authenticates: it carries the prefix and some key stores its hash. */
  predicate Authenticates(keys: seq<Key>, presented: string) {
    KEY_PREFIX <= presented && exists k :: k in keys && k.sha == Sha256(presented)
  }

  ghost predicate DistinctIds(keys: seq<Key>) {
    forall i, j :: 0 <= i < j < |keys| ==> keys[i].id != keys[j].id
  }

  lemma {:induction false} WithoutMembers(keys: seq<Key>, id: string)
    requires DistinctIds(keys)
    ensures DistinctIds(Without(keys, id))
    ensures forall k :: k in Without(keys, id) <==> k in keys && k.id != id
  {
    if keys != [] {
      var head, tail := keys[0], keys[1..];
      WithoutMembers(tail, id);
      HeadOrTail(keys);
      if head.id != id {
        HeadOrTail([head] + Without(tail, id));
        DistinctCons(head, Without(tail, id));
      }
    }
  }

  lemma HeadOrTail(keys: seq<Key>)
    requires keys != []
    ensures forall k :: k in keys <==> k == keys[0] || k in keys[1..]
  {
    assert keys == [keys[0]] + keys[1..];
  }

  lemma DistinctCons(head: Key, rest: seq<Key>)
    requires DistinctIds(rest) && forall k :: k in rest ==> k.id != head.id
    ensures DistinctIds([head] + rest)
  {
    assert forall i :: 0 <= i < |rest| ==> rest[i] in rest;
  }

  lemma {:induction false} WithoutScopedKeepsUnscoped(keys: seq<Key>, id: string)
    requires forall k :: k in keys && k.id == id ==> k.scope == CONTROL_PLANE_SCOPE
    ensures Unscoped(Without(keys, id)) == Unscoped(keys)
  {
    if keys != [] && keys[0].id != id {
      WithoutScopedKeepsUnscoped(keys[1..], id);
      assert ([keys[0]] + Without(keys[1..], id))[1..] == Without(keys[1..], id);
    }
  }

  lemma {:induction false} UnscopedAppend(keys: seq<Key>, key: Key)
    ensures Unscoped(keys + [key]) == Unscoped(keys) + if key.scope == CONTROL_PLANE_SCOPE then [] else [key]
  {
    if keys == [] {
      assert [key][1..] == [];
    } else {
      assert (keys + [key])[1..] == keys[1..] + [key];
      UnscopedAppend(keys[1..], key);
    }
  }

  lemma {:induction false} ScopedIdsMembers(keys: seq<Key>, id: string)
    ensures id in ScopedIds(keys) <==> exists k :: k in keys && k.id == id && k.scope == CONTROL_PLANE_SCOPE
  {
    if keys != [] {
      var n := |keys| - 1;
      ScopedIdsMembers(keys[..n], id);
      assert keys == keys[..n] + [keys[n]];
    }
  }

  // ----- the store -----

  class KeyStore {
    var backing: array<Key>
    var len: nat
    var file: seq<Key>

    ghost predicate Valid()
      reads this, backing
    {
      len <= backing.Length && file == View()
    }

    function View(): seq<Key>
      reads this, backing
      requires len <= backing.Length
    {
      backing[..len]
    }

    constructor Load(file: seq<Key>)
      ensures Valid() && View() == file && fresh(backing)
    {
      backing := new Key[|file|](i requires 0 <= i < |file| => file[i]);
      len := |file|;
      this.file := file;
    }

    method Persist(writes: bool) returns (ok: bool)
      requires len <= backing.Length
      modifies this`file
      ensures ok == writes && file == if ok then View() else old(file)
    {
      ok := writes;
      if writes {
        file := backing[..len];
      }
    }

    /** Go's append: in place while there is room, into a larger array otherwise. */
    method Append(key: Key, growth: nat)
      requires len <= backing.Length
      modifies this`backing, this`len, backing
      ensures len <= backing.Length && View() == old(View()) + [key]
      ensures backing == old(backing) || fresh(backing)
    {
      if len == backing.Length {
        var larger := new Key[len + 1 + growth](_ => key);
        forall i | 0 <= i < len {
          larger[i] := backing[i];
        }
        backing := larger;
      } else {
        backing[len] := key;
      }
      len := len + 1;
    }

    /** Memory and file agree whether or not the file could be written: a failed mint truncates
        the slice again and leaves every earlier entry of the array as it was. */
    method Mint(name: string, scope: string, secret: Option<string>, id: Option<string>, now: int, growth: nat, writes: bool)
      returns (r: Result<(string, Key), StoreError>)
      requires Valid()
      requires secret.Some? ==> |secret.value| >= 4
      modifies this, backing
      ensures Valid() && (backing == old(backing) || fresh(backing))
      ensures r.Ok? <==> secret.Some? && id.Some? && writes
      ensures r.Ok? ==>
        && r.value == (Plaintext(secret.value), NewKey(id.value, name, secret.value, now, scope))
        && View() == old(View()) + [r.value.1]
      ensures r.Err? ==> View() == old(View())
    {
      if secret.None? || id.None? {
        return Err(NoRandomness);
      }
      var key := NewKey(id.value, name, secret.value, now, scope);
      Append(key, growth);
      var ok := Persist(writes);
      if !ok {
        len := len - 1;
        assert View() == old(View());
        return Err(NotPersisted);
      }
      r := Ok((Plaintext(secret.value), key));
    }

    /** The first key with the id goes; a failed write puts the previous slice back. */
    method Revoke(id: string, writes: bool) returns (r: Result<(), StoreError>)
      requires Valid()
      modifies this
      ensures Valid() && (backing == old(backing) || fresh(backing))
      ensures r == if !HasId(old(View()), id) then Err(KeyNotFound) else if writes then Ok(()) else Err(NotPersisted)
      ensures View() == Revoked(old(View()), id, writes)
    {
      var i := 0;
      while i < len
        invariant i <= len
        invariant forall j :: 0 <= j < i ==> backing[j].id != id
      {
        if backing[i].id == id {
          var keys := backing[..len];
          WithoutAt(keys, id, i);
          var remaining := new Key[len - 1](k requires 0 <= k < len - 1 && len <= backing.Length reads this, backing =>
            if k < i then backing[k] else backing[k + 1]);
          var prev, prevLen := backing, len;
          backing, len := remaining, len - 1;
          assert View() == keys[..i] + keys[i + 1..];
          var ok := Persist(writes);
          if !ok {
            backing, len := prev, prevLen;
            return Err(NotPersisted);
          }
          return Ok(());
        }
        i := i + 1;
      }
      WithoutAbsent(View(), id);
      r := Err(KeyNotFound);
    }

    /** Every stored hash is compared before the answer is decided. */
    method Verify(presented: string) returns (found: bool)
      requires Valid()
      ensures found == Authenticates(View(), presented)
    {
      if !(KEY_PREFIX <= presented) {
        return false;
      }
      found := false;
      for i := 0 to len
        invariant found == exists k :: k in backing[..i] && k.sha == Sha256(presented)
      {
        assert backing[..i + 1] == backing[..i] + [backing[i]];
        found := found || backing[i].sha == Sha256(presented);
      }
    }

    method SupersededIds() returns (ids: seq<string>)
      requires Valid()
      ensures ids == ScopedIds(View())
    {
      ids := [];
      for i := 0 to len
        invariant ids == ScopedIds(backing[..i])
      {
        assert backing[..i + 1][..i] == backing[..i];
        if backing[i].scope == CONTROL_PLANE_SCOPE {
          ids := ids + [backing[i].id];
        }
      }
    }

    method RevokeAll(ids: seq<string>, writes: seq<bool>) returns (failed: bool)
      requires Valid() && |writes| == |ids|
      modifies this
      ensures Valid() && View() == RevokedAll(old(View()), ids, writes)
      ensures failed == RevocationFailed(old(View()), ids, writes)
    {
      failed := false;
      for i := 0 to |ids|
        invariant Valid() && View() == RevokedAll(old(View()), ids[..i], writes[..i])
        invariant backing == old(backing) || fresh(backing)
        invariant failed == RevocationFailed(old(View()), ids[..i], writes[..i])
      {
        assert ids[..i + 1][..i] == ids[..i] && writes[..i + 1][..i] == writes[..i];
        var r := Revoke(ids[i], writes[i]);
        if r == Err(NotPersisted) {
          failed := true;
        }
      }
      assert ids[..|ids|] == ids && writes[..|ids|] == writes;
    }
  }

  lemma {:induction false} WithoutAt(keys: seq<Key>, id: string, i: nat)
    requires i < |keys| && keys[i].id == id && forall j :: 0 <= j < i ==> keys[j].id != id
    ensures Without(keys, id) == keys[..i] + keys[i + 1..]
  {
    if i > 0 {
      WithoutAt(keys[1..], id, i - 1);
      assert keys[..i] == [keys[0]] + keys[1..][..i - 1];
      assert keys[1..][i..] == keys[i + 1..];
      Regroup([keys[0]], keys[1..][..i - 1], keys[i + 1..]);
    }
  }

  lemma {:induction false} WithoutAbsent(keys: seq<Key>, id: string)
    requires !HasId(keys, id)
    ensures Without(keys, id) == keys
  {
    if keys != [] {
      assert keys[0] in keys;
      assert forall k :: k in keys[1..] ==> k in keys;
      WithoutAbsent(keys[1..], id);
    }
  }

  /** What the provider gives a registration: a key to publish and the ids to retire once the
      control plane has it. */
  datatype Grant = Grant(plaintext: string, superseded: seq<string>)

  class InferenceKeyProvider {
    const keys: KeyStore

    constructor (keys: KeyStore)
      ensures this.keys == keys
    {
      this.keys := keys;
    }

    method Mint(published: bool, secret: Option<string>, id: Option<string>, now: int, growth: nat, writes: bool)
      returns (r: Option<Grant>)
      requires keys.Valid() && (secret.Some? ==> |secret.value| >= 4)
      modifies keys, keys.backing
      ensures keys.Valid()
      ensures r.Some? <==> published && secret.Some? && id.Some? && writes
      ensures r.Some? ==>
        && r.value == Grant(Plaintext(secret.value), ScopedIds(old(keys.View())))
        && keys.View() == old(keys.View()) +
             [NewKey(id.value, CONTROL_PLANE_NAME, secret.value, now, CONTROL_PLANE_SCOPE)]
      ensures r.None? ==> keys.View() == old(keys.View())
    {
      if !published {
        return None;
      }
      var superseded := keys.SupersededIds();
      var minted := keys.Mint(CONTROL_PLANE_NAME, CONTROL_PLANE_SCOPE, secret, id, now, growth, writes);
      if minted.Err? {
        return None;
      }
      r := Some(Grant(minted.value.0, superseded));
    }

    method Commit(grant: Grant, writes: seq<bool>)
      requires keys.Valid() && |writes| == |grant.superseded|
      modifies keys
      ensures keys.Valid() && keys.View() == RevokedAll(old(keys.View()), grant.superseded, writes)
    {
      if |grant.superseded| == 0 {
        return;
      }
      var failed := keys.RevokeAll(grant.superseded, writes);
    }
  }
}
