/** The trust-on-first-use registry of app identity keys (internal/pairing/pinstore.go).
    The functions say what one locked call does to the device map; the class is the store
    itself, with its file.  A file write is all or nothing and may fail. */
module Pins {
  import opened Wrappers

  datatype Pin = Pin(account: string, appKey: string, verified: bool, firstSeen: int, verifiedAt: int)

  type Devices = map<string, Pin>

  datatype Observation = FirstContact | KnownVerified | KnownUnverified | SafetyNumberChanged

  function PinKey(account: string, appKey: string): string {
    account + ['\0'] + appKey
  }

  predicate NulFree(s: string) {
    '\0' !in s
  }

  /** Base64 text holds no NUL, so for the keys a handshake can present the joined map key
      determines both halves. */
  lemma PinKeyInjective(a1: string, k1: string, a2: string, k2: string)
    requires NulFree(k1) && NulFree(k2)
    requires PinKey(a1, k1) == PinKey(a2, k2)
    ensures a1 == a2 && k1 == k2
  {
    var joined := PinKey(a1, k1);
    assert forall i :: |a1| < i < |joined| ==> joined[i] == k1[i - |a1| - 1];
    assert joined == PinKey(a2, k2);
    assert forall i :: |a2| < i < |joined| ==> joined[i] == k2[i - |a2| - 1];
    assert joined[|a1|] == '\0' && joined[|a2|] == '\0';
    assert |a1| == |a2|;
    assert a1 == joined[..|a1|] == a2;
    assert k1 == joined[|a1| + 1..] == k2;
  }

  // ----- what a locked call does to the map -----

  predicate OtherVerified(devices: Devices, account: string, appKey: string) {
    exists k :: k in devices && devices[k].account == account && devices[k].appKey != appKey && devices[k].verified
  }

  function Classify(devices: Devices, account: string, appKey: string): Observation {
    var k := PinKey(account, appKey);
    if k in devices then (if devices[k].verified then KnownVerified else KnownUnverified)
    else if OtherVerified(devices, account, appKey) then SafetyNumberChanged
    else FirstContact
  }

  predicate Stale(pin: Pin, account: string) {
    pin.account == account && !pin.verified
  }

  function WithoutStale(devices: Devices, account: string): Devices {
    map k | k in devices && !Stale(devices[k], account) :: devices[k]
  }

  function Observed(devices: Devices, account: string, appKey: string, now: int): Devices {
    if Classify(devices, account, appKey) == FirstContact
    then WithoutStale(devices, account)[PinKey(account, appKey) := Pin(account, appKey, false, now, 0)]
    else devices
  }

  predicate Known(devices: Devices, account: string, appKey: string) {
    PinKey(account, appKey) in devices
  }

  predicate Trusted(devices: Devices, account: string, appKey: string) {
    Known(devices, account, appKey) && devices[PinKey(account, appKey)].verified
  }

  function Verified(devices: Devices, account: string, appKey: string, now: int): Devices {
    if Known(devices, account, appKey)
    then
      var k := PinKey(account, appKey);
      devices[k := devices[k].(verified := true, verifiedAt := now)]
    else devices
  }

  // ----- what every call keeps -----

  ghost predicate WellKeyed(devices: Devices) {
    forall k :: k in devices ==> k == PinKey(devices[k].account, devices[k].appKey) && NulFree(devices[k].appKey)
  }

  ghost predicate OnePinPerAccount(devices: Devices) {
    forall k1, k2 :: k1 in devices && k2 in devices && devices[k1].account == devices[k2].account ==> k1 == k2
  }

  ghost predicate Sound(devices: Devices) {
    WellKeyed(devices) && OnePinPerAccount(devices)
  }

  /** A later map still trusts everything an earlier one did, for the same identity. */
  predicate KeepsTrust(before: Devices, after: Devices) {
    forall k :: k in before && before[k].verified ==>
      k in after && after[k].verified && after[k].account == before[k].account && after[k].appKey == before[k].appKey
  }

  lemma ObservedKeeps(devices: Devices, account: string, appKey: string, now: int)
    requires Sound(devices) && NulFree(appKey)
    ensures Sound(Observed(devices, account, appKey, now))
    ensures KeepsTrust(devices, Observed(devices, account, appKey, now))
    ensures Known(Observed(devices, account, appKey, now), account, appKey) <==>
      Classify(devices, account, appKey) != SafetyNumberChanged
    ensures Trusted(Observed(devices, account, appKey, now), account, appKey) <==>
      Classify(devices, account, appKey) == KnownVerified
    ensures Classify(devices, account, appKey) == FirstContact ==>
      Observed(devices, account, appKey, now)[PinKey(account, appKey)] == Pin(account, appKey, false, now, 0)
    ensures forall k :: k in devices && devices[k].account != account ==>
      k in Observed(devices, account, appKey, now) && Observed(devices, account, appKey, now)[k] == devices[k]
  {
    var after := Observed(devices, account, appKey, now);
    if Classify(devices, account, appKey) == FirstContact {
      forall k | k in after && after[k].account == account
        ensures k == PinKey(account, appKey)
      {
        if k in devices && k != PinKey(account, appKey) {
          assert false;
        }
      }
    }
  }

  lemma VerifiedKeeps(devices: Devices, account: string, appKey: string, now: int)
    requires Sound(devices)
    ensures Sound(Verified(devices, account, appKey, now))
    ensures KeepsTrust(devices, Verified(devices, account, appKey, now))
    ensures Trusted(Verified(devices, account, appKey, now), account, appKey) <==> Known(devices, account, appKey)
    ensures Known(devices, account, appKey) ==>
      var p, q := devices[PinKey(account, appKey)], Verified(devices, account, appKey, now)[PinKey(account, appKey)];
      q == Pin(p.account, p.appKey, true, p.firstSeen, now)
    ensures forall k :: k in devices && k != PinKey(account, appKey) ==>
      k in Verified(devices, account, appKey, now) && Verified(devices, account, appKey, now)[k] == devices[k]
  {
  }

  /** The fact the inference gate leans on: an account never has two trusted app keys. */
  lemma OneTrustedKey(devices: Devices, account: string, k1: string, k2: string)
    requires Sound(devices) && NulFree(k1) && NulFree(k2)
    requires Trusted(devices, account, k1) && Trusted(devices, account, k2)
    ensures k1 == k2
  {
    var p1, p2 := devices[PinKey(account, k1)], devices[PinKey(account, k2)];
    PinKeyInjective(account, k1, p1.account, p1.appKey);
    PinKeyInjective(account, k2, p2.account, p2.appKey);
    assert p1.account == p2.account;
  }

  /** "Verify then supersedes the old one" cannot happen: once one key of an account is
      trusted, a different key is refused, is not recorded, and cannot be verified. */
  lemma TrustedKeyIsFinal(devices: Devices, account: string, pinned: string, other: string, now: int)
    requires Sound(devices) && NulFree(pinned) && NulFree(other) && pinned != other
    requires Trusted(devices, account, pinned)
    ensures Classify(devices, account, other) == SafetyNumberChanged
    ensures Observed(devices, account, other, now) == devices
    ensures !Known(devices, account, other)
    ensures Verified(devices, account, other, now) == devices
  {
    var k := PinKey(account, pinned);
    PinKeyInjective(account, pinned, devices[k].account, devices[k].appKey);
    if Known(devices, account, other) {
      var p := devices[PinKey(account, other)];
      PinKeyInjective(account, other, p.account, p.appKey);
      assert false;
    }
    assert devices[k].account == account && devices[k].appKey != other && devices[k].verified;
  }

  // ----- the file -----

  /** Loading folds the list into the map; a later entry replaces an earlier one. */
  function Loaded(list: seq<Pin>): Devices {
    if list == [] then map[]
    else
      var last := list[|list| - 1];
      Loaded(list[..|list| - 1])[PinKey(last.account, last.appKey) := last]
  }

  /** A list that holds each device once, in whatever order the map was walked. */
  ghost predicate Lists(list: seq<Pin>, devices: Devices) {
    && (forall i, j :: 0 <= i < j < |list| ==> list[i] != list[j])
    && (forall p :: p in list <==> (exists k :: k in devices && devices[k] == p))
  }

  lemma {:induction false} LoadedAt(list: seq<Pin>, k: string)
    requires forall i, j {:trigger list[i], list[j]} :: 0 <= i < j < |list| ==>
      PinKey(list[i].account, list[i].appKey) != PinKey(list[j].account, list[j].appKey)
    ensures k in Loaded(list) <==> exists p :: p in list && PinKey(p.account, p.appKey) == k
    ensures k in Loaded(list) ==> Loaded(list)[k] in list
    ensures k in Loaded(list) ==> PinKey(Loaded(list)[k].account, Loaded(list)[k].appKey) == k
  {
    if list != [] {
      var n := |list| - 1;
      LoadedAt(list[..n], k);
      assert list == list[..n] + [list[n]];
      assert forall p :: p in list <==> p in list[..n] || p == list[n];
    }
  }

  /** Save then load gives back the same map, whatever order the save walked it in. */
  lemma SaveLoadRoundTrip(list: seq<Pin>, devices: Devices)
    requires WellKeyed(devices) && Lists(list, devices)
    ensures Loaded(list) == devices
  {
    forall i, j {:trigger list[i], list[j]} | 0 <= i < j < |list|
      ensures PinKey(list[i].account, list[i].appKey) != PinKey(list[j].account, list[j].appKey)
    {
      assert list[i] in list && list[j] in list;
    }
    forall k
      ensures k in Loaded(list) <==> k in devices
      ensures k in Loaded(list) ==> Loaded(list)[k] == devices[k]
    {
      LoadedAt(list, k);
      if k in devices {
        assert devices[k] in list;
      }
    }
  }

  // ----- the store -----

  class PinStore {
    var devices: Devices
    var file: Option<seq<Pin>>

    /** What a restart would load. */
    function OnDisk(): Devices
      reads this
    {
      match file case None => map[] case Some(list) => Loaded(list)
    }

    constructor Load(file: Option<seq<Pin>>)
      ensures this.file == file
      ensures devices == (match file case None => map[] case Some(list) => Loaded(list))
    {
      var loaded: Devices := map[];
      if file.Some? {
        var list := file.value;
        for i := 0 to |list|
          invariant loaded == Loaded(list[..i])
        {
          assert list[..i + 1][..i] == list[..i];
          loaded := loaded[PinKey(list[i].account, list[i].appKey) := list[i]];
        }
        assert list[..|list|] == list;
      }
      this.file := file;
      this.devices := loaded;
    }

    method SaveLocked(writes: bool) returns (saved: bool)
      requires WellKeyed(devices)
      modifies this`file
      ensures saved == writes
      ensures saved ==> OnDisk() == devices
      ensures !saved ==> file == old(file)
    {
      var list: seq<Pin> := [];
      var todo := devices.Keys;
      while todo != {}
        invariant todo <= devices.Keys
        invariant forall i, j :: 0 <= i < j < |list| ==> list[i] != list[j]
        invariant forall p :: p in list <==> (exists k :: k in devices && k !in todo && devices[k] == p)
      {
        var k :| k in todo;
        assert devices[k] !in list;
        list := list + [devices[k]];
        todo := todo - {k};
      }
      saved := writes;
      if writes {
        SaveLoadRoundTrip(list, devices);
        file := Some(list);
      }
    }

    method HasOtherVerified(account: string, appKey: string) returns (found: bool)
      ensures found == OtherVerified(devices, account, appKey)
    {
      var todo := devices.Keys;
      while todo != {}
        invariant todo <= devices.Keys
        invariant forall d :: d in devices && d !in todo ==>
          !(devices[d].account == account && devices[d].appKey != appKey && devices[d].verified)
      {
        var d :| d in todo;
        if devices[d].account == account && devices[d].appKey != appKey && devices[d].verified {
          return true;
        }
        todo := todo - {d};
      }
      found := false;
    }

    method EvictStale(account: string)
      modifies this`devices
      ensures devices == WithoutStale(old(devices), account)
    {
      var todo := devices.Keys;
      while todo != {}
        invariant forall d :: d in devices <==> d in old(devices) && (d in todo || !Stale(old(devices)[d], account))
        invariant forall d :: d in devices ==> devices[d] == old(devices)[d]
      {
        var d :| d in todo;
        todo := todo - {d};
        if d in devices && Stale(devices[d], account) {
          devices := devices - {d};
        }
      }
    }

    /** The map is changed before the save and stays changed when the save fails. */
    method Observe(account: string, appKey: string, now: int, writes: bool)
      returns (seen: Observation, saved: bool)
      requires Sound(devices) && NulFree(appKey)
      modifies this
      ensures Sound(devices)
      ensures devices == Observed(old(devices), account, appKey, now)
      ensures seen == Classify(old(devices), account, appKey)
      ensures saved == (seen == FirstContact ==> writes)
      ensures seen == FirstContact && saved ==> OnDisk() == devices
      ensures !(seen == FirstContact && saved) ==> file == old(file)
    {
      ObservedKeeps(devices, account, appKey, now);
      var k := PinKey(account, appKey);
      if k in devices {
        return if devices[k].verified then KnownVerified else KnownUnverified, true;
      }
      var changed := HasOtherVerified(account, appKey);
      if changed {
        return SafetyNumberChanged, true;
      }
      EvictStale(account);
      devices := devices[k := Pin(account, appKey, false, now, 0)];
      saved := SaveLocked(writes);
      seen := FirstContact;
    }

    method Verify(account: string, appKey: string, now: int, writes: bool) returns (found: bool, saved: bool)
      requires Sound(devices)
      modifies this
      ensures Sound(devices)
      ensures devices == Verified(old(devices), account, appKey, now)
      ensures found == Known(old(devices), account, appKey)
      ensures saved == (found && writes)
      ensures saved ==> OnDisk() == devices
      ensures !saved ==> file == old(file)
    {
      VerifiedKeeps(devices, account, appKey, now);
      var k := PinKey(account, appKey);
      if k !in devices {
        return false, false;
      }
      devices := devices[k := devices[k].(verified := true, verifiedAt := now)];
      saved := SaveLocked(writes);
      found := true;
    }

    method IsVerified(account: string, appKey: string) returns (trusted: bool)
      ensures trusted == Trusted(devices, account, appKey)
    {
      var k := PinKey(account, appKey);
      trusted := k in devices && devices[k].verified;
    }
  }
}
