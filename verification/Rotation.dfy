/** The mint / publish / commit protocol between the node's key store and the control plane
    (internal/controlplane/heartbeat.go register, client.go Register, internal/node/inference_key.go),
    one critical section or one server reply per step, with an operator minting and revoking in
    between.  A secret and an id are drawn fresh; a request may be refused, accepted, accepted with
    the reply lost, answered 422, or given up on, and then land at any later time or never.  Memory and file of the store agree after every operation
    (Keys.KeyStore), so one list stands for both and a restart only forgets the attempt. */
module Rotation {
  import opened Wrappers
  import opened Keys

  datatype Reply = Accepted | ReplyLost | Refused | Unprocessable | GivenUp

  datatype Phase =
    | Resting
    | Minting(superseded: seq<string>, status: bool)
    | Sending(published: Option<string>, newId: string, superseded: seq<string>, status: bool)
    | FallingBack(published: Option<string>, newId: string, superseded: seq<string>)
    | Committing(left: seq<string>, newId: string, failed: bool)
    | Committed(newId: string, failed: bool)

  datatype State = State(
    keys: seq<Key>,
    server: Option<string>,          // the plaintext the control plane last accepted
    phase: Phase,
    usedIds: set<string>, usedSecrets: set<string>,
    lost: set<string>,               // scoped plaintexts the operator revoked
    stripped: set<string>,           // plaintexts the server held when a stripped registration succeeded
    retired: set<string>,            // scoped plaintexts a commit took away
    late: set<string>,               // published in requests given up on, which may still land
    stale: set<string>,              // such plaintexts that a commit has begun to replace
    overtaken: set<string>)          // stale ones that landed

  datatype Event =
    | Starts(publish: bool, status: bool)
    | Mints(secret: string, id: string, now: int, ok: bool)
    | Answers(reply: Reply)
    | Lands(text: string)
    | Retires(writes: bool)
    | OperatorMints(name: string, secret: string, id: string, now: int, ok: bool)
    | OperatorRevokes(id: string, writes: bool)
    | Restarts

  const START := State([], None, Resting, {}, {}, {}, {}, {}, {}, {}, {})

  predicate Drawn(s: State, secret: string, id: string) {
    |secret| >= 4 && id !in s.usedIds && Plaintext(secret) !in s.usedSecrets
  }

  function Added(s: State, secret: string, key: Key): State {
    s.(keys := s.keys + [key], usedIds := s.usedIds + {key.id}, usedSecrets := s.usedSecrets + {Plaintext(secret)})
  }

  /** Scoped plaintexts that a revocation of this id takes away. */
  function ScopedTexts(s: State, id: string): set<string> {
    set t | t in s.usedSecrets && exists k :: k in s.keys && k.id == id && k.scope == CONTROL_PLANE_SCOPE && k.sha == Sha256(t)
  }

  function ToCommit(s: State, published: Option<string>, newId: string, superseded: seq<string>): State {
    if published.None? then s.(phase := Resting)
    else
      s.(stale := s.stale + s.late,
         phase := if superseded == [] then Committed(newId, false) else Committing(superseded, newId, false))
  }

  /** The attempt is over for the node, but a request it has sent may still arrive. */
  function Abandoned(s: State): State {
    s.(phase := Resting,
       late := if s.phase.Sending? && s.phase.published.Some? then s.late + {s.phase.published.value} else s.late)
  }

  function Answered(s: State, reply: Reply): State {
    match s.phase
    case Sending(published, newId, superseded, status) =>
      (match reply
       case Accepted => ToCommit(s.(server := if published.Some? then published else s.server), published, newId, superseded)
       case ReplyLost => s.(server := if published.Some? then published else s.server, phase := Resting)
       case Refused => s.(phase := Resting)
       case GivenUp => Abandoned(s)
       case Unprocessable =>
         s.(phase := if status || published.Some? then FallingBack(published, newId, superseded) else Resting))
    case FallingBack(published, newId, superseded) =>
      (match reply
       case Accepted =>
         ToCommit(s.(stripped := if published.Some? && s.server.Some? then s.stripped + {s.server.value} else s.stripped),
                  published, newId, superseded)
       case _ => s.(phase := Resting))
    case _ => s
  }

  function Step(s: State, e: Event): State {
    match e
    case Starts(publish, status) =>
      if !s.phase.Resting? && !s.phase.Committed? then s
      else s.(phase := if publish then Minting(ScopedIds(s.keys), status) else Sending(None, "", [], status))
    case Mints(secret, id, now, ok) =>
      if !s.phase.Minting? then s
      else if !ok then s.(phase := Sending(None, "", [], s.phase.status))
      else if !Drawn(s, secret, id) then s
      else Added(s, secret, NewKey(id, CONTROL_PLANE_NAME, secret, now, CONTROL_PLANE_SCOPE)).(
             phase := Sending(Some(Plaintext(secret)), id, s.phase.superseded, s.phase.status))
    case Answers(reply) => Answered(s, reply)
    case Lands(text) =>
      if text !in s.late then s
      else
        s.(server := Some(text), late := s.late - {text},
           overtaken := if text in s.stale then s.overtaken + {text} else s.overtaken)
    case Retires(writes) =>
      if !s.phase.Committing? || s.phase.left == [] then s
      else
        var Committing(left, newId, failed) := s.phase;
        var failed' := failed || (!writes && HasId(s.keys, left[0]));
        s.(keys := Revoked(s.keys, left[0], writes),
           retired := if writes then s.retired + ScopedTexts(s, left[0]) else s.retired,
           phase := if |left| == 1 then Committed(newId, failed') else Committing(left[1..], newId, failed'))
    case OperatorMints(name, secret, id, now, ok) =>
      if !Drawn(s, secret, id) || !ok then s else Added(s, secret, NewKey(id, name, secret, now, ""))
    case OperatorRevokes(id, writes) =>
      s.(keys := Revoked(s.keys, id, writes), lost := if writes then s.lost + ScopedTexts(s, id) else s.lost)
    case Restarts => Abandoned(s)
  }

  function Play(s: State, events: seq<Event>): State {
    if events == [] then s else Step(Play(s, events[..|events| - 1]), events[|events| - 1])
  }

  // ----- the invariant -----

  ghost predicate Has(keys: seq<Key>, text: string) {
    exists k :: k in keys && k.scope == CONTROL_PLANE_SCOPE && k.sha == Sha256(text) && KEY_PREFIX <= text
  }

  ghost predicate StoreOk(s: State) {
    && DistinctIds(s.keys)
    && (forall k :: k in s.keys ==> k.id in s.usedIds && k.sha.text in s.usedSecrets)
    && (forall j, k :: j in s.keys && k in s.keys && j.sha == k.sha ==> j == k)
    && (forall t :: t in s.usedSecrets ==> KEY_PREFIX <= t)
  }

  /** These ids may be retired: no unscoped key carries one, now or ever after. */
  ghost predicate Retirable(s: State, ids: seq<string>) {
    forall id :: id in ids ==> id in s.usedIds && forall k :: k in s.keys && k.id == id ==> k.scope == CONTROL_PLANE_SCOPE
  }

  /** The plaintext t is not among what a commit of these ids takes away. */
  ghost predicate Spares(s: State, ids: seq<string>, t: string) {
    forall k :: k in s.keys && k.sha == Sha256(t) ==> k.id !in ids
  }

  ghost predicate Alive(s: State, t: string) {
    t in s.usedSecrets && (Has(s.keys, t) || t in s.lost)
  }

  /** Minted for the control plane: its key is in the store, or was taken away. */
  ghost predicate Minted(s: State, t: string) {
    t in s.usedSecrets && (Has(s.keys, t) || t in s.lost || t in s.retired)
  }

  /** What was taken away does not come back. */
  ghost predicate GoneOk(s: State) {
    && s.lost !! s.retired
    && forall t :: t in s.lost || t in s.retired ==> t in s.usedSecrets && forall k :: k in s.keys ==> k.sha != Sha256(t)
  }

  ghost predicate LateOk(s: State) {
    && (forall t :: t in s.late ==> Minted(s, t) && (t !in s.stale ==> Alive(s, t)))
    && (s.phase.Committing? ==> s.late <= s.stale)
    && (s.server.Some? ==> Minted(s, s.server.value))
  }

  /** The new key of this attempt is not one that may still land. */
  ghost predicate NotLate(s: State, newId: string) {
    forall k :: k in s.keys && k.id == newId ==> k.sha.text !in s.late
  }

  /** A commit of ids, made for the key with id `newId`, would leave nothing else behind. */
  ghost predicate Covers(s: State, ids: seq<string>, newId: string, failed: bool) {
    && newId in s.usedIds && newId !in ids
    && (!failed ==> forall k :: k in s.keys && k.scope == CONTROL_PLANE_SCOPE ==> k.id == newId || k.id in ids)
  }

  ghost predicate Published(s: State, published: Option<string>, newId: string, superseded: seq<string>) {
    published.Some? ==>
      && Alive(s, published.value) && Spares(s, superseded, published.value)
      && Covers(s, superseded, newId, false)
      && (forall k :: k in s.keys && k.id == newId ==> k.sha == Sha256(published.value))
      && published.value !in s.late
  }

  ghost predicate PhaseOk(s: State) {
    match s.phase
    case Resting => true
    case Minting(superseded, _) =>
      Retirable(s, superseded) && forall k :: k in s.keys && k.scope == CONTROL_PLANE_SCOPE ==> k.id in superseded
    case Sending(published, newId, superseded, _) =>
      Retirable(s, superseded) && Published(s, published, newId, superseded)
    case FallingBack(published, newId, superseded) =>
      Retirable(s, superseded) && Published(s, published, newId, superseded)
    case Committing(left, newId, failed) =>
      && left != [] && Retirable(s, left) && Covers(s, left, newId, failed) && NotLate(s, newId)
      && (s.server.Some? && Current(s, s.server.value) ==> Spares(s, left, s.server.value))
    case Committed(newId, failed) => Covers(s, [], newId, failed) && NotLate(s, newId)
  }

  /** Not given up by a stripped registration, nor landed after its replacement. */
  predicate Current(s: State, t: string) {
    t !in s.stripped && t !in s.overtaken
  }

  /** The control plane's key works unless the operator took it, a stripped registration succeeded
      while the control plane held it, or it landed too late. */
  ghost predicate ServerOk(s: State) {
    s.server.Some? && Current(s, s.server.value) ==> Alive(s, s.server.value)
  }

  ghost predicate Inv(s: State) {
    StoreOk(s) && PhaseOk(s) && ServerOk(s) && GoneOk(s) && LateOk(s)
  }

  // ----- each step keeps it -----

  lemma OperatorRevokeKeeps(s: State, id: string, writes: bool)
    requires Inv(s)
    ensures Inv(Step(s, OperatorRevokes(id, writes)))
  {
    var t := Step(s, OperatorRevokes(id, writes));
    WithoutMembers(s.keys, id);
    forall x | Alive(s, x)
      ensures Alive(t, x)
    {
      if Has(s.keys, x) {
        var k :| k in s.keys && k.scope == CONTROL_PLANE_SCOPE && k.sha == Sha256(x) && KEY_PREFIX <= x;
        assert k in t.keys || x in t.lost;
      }
    }
  }

  /** A key with a fresh id and a fresh secret joins the store. */
  lemma AddedOk(s: State, secret: string, key: Key)
    requires StoreOk(s) && Drawn(s, secret, key.id) && key.sha == Sha256(Plaintext(secret))
    ensures StoreOk(Added(s, secret, key))
    ensures forall k :: k in Added(s, secret, key).keys <==> k in s.keys || k == key
    ensures forall x :: Alive(s, x) ==> Alive(Added(s, secret, key), x)
  {
    var t := Added(s, secret, key);
    assert forall k :: k in t.keys <==> k in s.keys || k == key;
    forall x | Alive(s, x)
      ensures Alive(t, x)
    {
      if Has(s.keys, x) {
        var k :| k in s.keys && k.scope == CONTROL_PLANE_SCOPE && k.sha == Sha256(x) && KEY_PREFIX <= x;
        assert k in t.keys;
      }
    }
    forall i, j | 0 <= i < j < |t.keys|
      ensures t.keys[i].id != t.keys[j].id
    {
      assert t.keys[i] in s.keys;
    }
  }

  lemma OperatorMintKeeps(s: State, name: string, secret: string, id: string, now: int, ok: bool)
    requires Inv(s)
    ensures Inv(Step(s, OperatorMints(name, secret, id, now, ok)))
  {
    if Drawn(s, secret, id) && ok {
      AddedOk(s, secret, NewKey(id, name, secret, now, ""));
    }
  }

  lemma MintKeeps(s: State, secret: string, id: string, now: int, ok: bool)
    requires Inv(s)
    ensures Inv(Step(s, Mints(secret, id, now, ok)))
  {
    if s.phase.Minting? && Drawn(s, secret, id) && ok {
      var key := NewKey(id, CONTROL_PLANE_NAME, secret, now, CONTROL_PLANE_SCOPE);
      AddedOk(s, secret, key);
      var t := Added(s, secret, key);
      assert key in t.keys && Has(t.keys, Plaintext(secret));
    }
  }

  lemma StartKeeps(s: State, publish: bool, status: bool)
    requires Inv(s)
    ensures Inv(Step(s, Starts(publish, status)))
  {
    forall id
      ensures id in ScopedIds(s.keys) <==> exists k :: k in s.keys && k.id == id && k.scope == CONTROL_PLANE_SCOPE
    {
      ScopedIdsMembers(s.keys, id);
    }
    assert forall i, j :: 0 <= i < |s.keys| && 0 <= j < |s.keys| && s.keys[i].id == s.keys[j].id ==> i == j;
  }

  lemma AcceptKeeps(s: State)
    requires Inv(s) && s.phase.Sending?
    ensures Inv(Answered(s, Accepted))
  {
  }

  lemma NoAnswerKeeps(s: State, reply: Reply)
    requires Inv(s) && s.phase.Sending? && !reply.Accepted?
    ensures Inv(Answered(s, reply))
  {
  }

  lemma FallbackKeeps(s: State, reply: Reply)
    requires Inv(s) && s.phase.FallingBack?
    ensures Inv(Answered(s, reply))
  {
  }

  lemma AnswerKeeps(s: State, reply: Reply)
    requires Inv(s)
    ensures Inv(Answered(s, reply))
  {
    if s.phase.FallingBack? {
      FallbackKeeps(s, reply);
    } else if s.phase.Sending? {
      if reply.Accepted? {
        AcceptKeeps(s);
      } else {
        NoAnswerKeeps(s, reply);
      }
    }
  }

  lemma LandKeeps(s: State, text: string)
    requires Inv(s)
    ensures Inv(Step(s, Lands(text)))
  {
  }

  lemma RestartKeeps(s: State)
    requires Inv(s)
    ensures Inv(Step(s, Restarts))
  {
  }

  /** What one retirement leaves in the store. */
  lemma RetiredKeys(s: State, writes: bool)
    requires Inv(s) && s.phase.Committing? && s.phase.left != []
    ensures
      var t := Step(s, Retires(writes));
      && DistinctIds(t.keys) && (forall k :: k in t.keys <==> k in s.keys && (writes ==> k.id != s.phase.left[0]))
  {
    WithoutMembers(s.keys, s.phase.left[0]);
  }

  lemma RetireKeepsStore(s: State, writes: bool)
    requires Inv(s) && s.phase.Committing? && s.phase.left != []
    ensures
      var t := Step(s, Retires(writes));
      StoreOk(t) && GoneOk(t)
  {
    RetiredKeys(s, writes);
  }

  /** A plaintext keeps its key, or is recorded as retired. */
  lemma RetireKeepsMinted(s: State, writes: bool, x: string)
    requires Inv(s) && s.phase.Committing? && s.phase.left != [] && Minted(s, x)
    ensures
      var t := Step(s, Retires(writes));
      Minted(t, x) && (Alive(s, x) && Spares(s, s.phase.left, x) ==> Alive(t, x))
  {
    var t := Step(s, Retires(writes));
    RetiredKeys(s, writes);
    if Has(s.keys, x) {
      var k :| k in s.keys && k.scope == CONTROL_PLANE_SCOPE && k.sha == Sha256(x) && KEY_PREFIX <= x;
      assert k in t.keys || x in t.retired;
    }
  }

  lemma RetireKeepsPhase(s: State, writes: bool)
    requires Inv(s) && s.phase.Committing? && s.phase.left != []
    ensures PhaseOk(Step(s, Retires(writes)))
  {
    RetiredKeys(s, writes);
    var left := s.phase.left;
    assert forall id :: id in left <==> id == left[0] || id in left[1..];
  }

  lemma RetireKeeps(s: State, writes: bool)
    requires Inv(s)
    ensures Inv(Step(s, Retires(writes)))
  {
    if s.phase.Committing? && s.phase.left != [] {
      var t := Step(s, Retires(writes));
      RetireKeepsStore(s, writes);
      RetireKeepsPhase(s, writes);
      forall x | Minted(s, x)
        ensures Minted(t, x) && (Alive(s, x) && Spares(s, s.phase.left, x) ==> Alive(t, x))
      {
        RetireKeepsMinted(s, writes, x);
      }
    }
  }

  lemma StepKeeps(s: State, e: Event)
    requires Inv(s)
    ensures Inv(Step(s, e))
  {
    match e
    case Starts(publish, status) => StartKeeps(s, publish, status);
    case Mints(secret, id, now, ok) => MintKeeps(s, secret, id, now, ok);
    case Answers(reply) => AnswerKeeps(s, reply);
    case Lands(text) => LandKeeps(s, text);
    case Retires(writes) => RetireKeeps(s, writes);
    case OperatorMints(name, secret, id, now, ok) => OperatorMintKeeps(s, name, secret, id, now, ok);
    case OperatorRevokes(id, writes) => OperatorRevokeKeeps(s, id, writes);
    case Restarts => RestartKeeps(s);
  }

  lemma {:induction false} PlayKeeps(events: seq<Event>)
    ensures Inv(Play(START, events))
  {
    if events != [] {
      PlayKeeps(events[..|events| - 1]);
      StepKeeps(Play(START, events[..|events| - 1]), events[|events| - 1]);
    }
  }

  // ----- what a run promises -----

  /** Over every run: the key the control plane last accepted still authenticates at the node,
      unless the operator revoked that very key, or a registration that only succeeded without
      its key was committed while the control plane held it, or its request was given up on and
      landed after a later registration. */
  lemma {:induction false} AcceptedKeyStillWorks(events: seq<Event>)
    ensures
      var s := Play(START, events);
      s.server.Some? && s.server.value !in s.lost && Current(s, s.server.value) ==> Authenticates(s.keys, s.server.value)
  {
    PlayKeeps(events);
  }

  /** Exactly: it authenticates unless a revocation by the operator, or the commit of one of those
      registrations, has taken its key away. */
  lemma {:induction false} AcceptedKeyWorksIff(events: seq<Event>)
    ensures
      var s := Play(START, events);
      s.server.Some? ==>
        && (Authenticates(s.keys, s.server.value) <==> s.server.value !in s.lost && s.server.value !in s.retired)
        && (s.server.value in s.retired ==> !Current(s, s.server.value))
  {
    PlayKeeps(events);
  }

  /** After a commit without a failed write, a request given up on earlier that still lands leaves
      the control plane with a key that is gone. */
  lemma {:induction false} LateLandingBreaksKey(events: seq<Event>, text: string)
    requires
      var s := Play(START, events);
      s.phase.Committed? && !s.phase.failed && text in s.late
    ensures
      var t := Play(START, events + [Lands(text)]);
      t.server == Some(text) && !Authenticates(t.keys, text)
  {
    PlayKeeps(events);
    PlayThen(START, events, Lands(text));
  }

  /** The plaintext x is out of use: known, and no key in the store is for it. */
  ghost predicate Dead(s: State, x: string) {
    x in s.usedSecrets && forall k :: k in s.keys ==> k.sha != Sha256(x)
  }

  lemma DeadStays(s: State, e: Event, x: string)
    requires Inv(s) && Dead(s, x)
    ensures Dead(Step(s, e), x)
  {
    if e.Retires? && s.phase.Committing? && s.phase.left != [] {
      RetiredKeys(s, e.writes);
    } else if e.OperatorRevokes? {
      WithoutMembers(s.keys, e.id);
    }
  }

  lemma {:induction false} DeadForever(s: State, later: seq<Event>, x: string)
    requires Inv(s) && Dead(s, x)
    ensures Inv(Play(s, later)) && Dead(Play(s, later), x)
  {
    if later != [] {
      DeadForever(s, later[..|later| - 1], x);
      StepKeeps(Play(s, later[..|later| - 1]), later[|later| - 1]);
      DeadStays(Play(s, later[..|later| - 1]), later[|later| - 1], x);
    }
  }

  /** A key that the operator revokes, anyone's, never authenticates again. */
  lemma {:induction false} OperatorRevokeIsFinal(events: seq<Event>, k: Key, later: seq<Event>)
    requires k in Play(START, events).keys
    ensures
      var s := Play(Step(Play(START, events), OperatorRevokes(k.id, true)), later);
      !Authenticates(s.keys, k.sha.text)
  {
    PlayKeeps(events);
    var s := Play(START, events);
    OperatorRevokeKeeps(s, k.id, true);
    WithoutMembers(s.keys, k.id);
    assert k.sha == Sha256(k.sha.text);
    DeadForever(Step(s, OperatorRevokes(k.id, true)), later, k.sha.text);
  }

  /** This person's key is in the store. */
  ghost predicate Holds(s: State, k: Key) {
    k in s.keys && k.scope == "" && forall j :: j in s.keys && j.id == k.id ==> j == k
  }

  lemma HoldsOn(s: State, e: Event, k: Key)
    requires Inv(s) && Holds(s, k) && !(e.OperatorRevokes? && e.id == k.id)
    ensures Holds(Step(s, e), k)
  {
    if e.Retires? && s.phase.Committing? && s.phase.left != [] {
      RetiredKeys(s, e.writes);
      assert s.phase.left[0] in s.phase.left;
    } else if e.OperatorRevokes? {
      WithoutMembers(s.keys, e.id);
    }
  }

  /** A key that the operator mints for a person authenticates until the operator revokes it, whatever
      rotates meanwhile. */
  lemma {:induction false} PersonsKeyWorks(events: seq<Event>, name: string, secret: string, id: string, now: int, later: seq<Event>)
    requires Drawn(Play(START, events), secret, id)
    requires forall e :: e in later ==> !(e.OperatorRevokes? && e.id == id)
    ensures
      var s := Play(Step(Play(START, events), OperatorMints(name, secret, id, now, true)), later);
      Inv(s) && Holds(s, NewKey(id, name, secret, now, "")) && Authenticates(s.keys, Plaintext(secret))
  {
    var k := NewKey(id, name, secret, now, "");
    var s := Step(Play(START, events), OperatorMints(name, secret, id, now, true));
    PlayKeeps(events);
    if later == [] {
      OperatorMintKeeps(Play(START, events), name, secret, id, now, true);
      assert k in s.keys;
    } else {
      var n := |later| - 1;
      assert forall e :: e in later[..n] ==> e in later;
      assert later[n] in later;
      PersonsKeyWorks(events, name, secret, id, now, later[..n]);
      StepKeeps(Play(s, later[..n]), later[n]);
      HoldsOn(Play(s, later[..n]), later[n], k);
    }
    assert KEY_PREFIX <= Plaintext(secret);
  }

  /** A refused request never lands, and one that lands does so once. */
  lemma {:induction false} NothingElseLands(events: seq<Event>, text: string)
    ensures
      var s := Play(START, events);
      s.phase.Sending? && s.phase.published == Some(text) ==>
        var refused := Step(s, Answers(Refused));
        refused.server == s.server && refused.phase == Resting && Step(refused, Lands(text)) == refused
    ensures
      var landed := Step(Play(START, events), Lands(text));
      Step(landed, Lands(text)) == landed
  {
    PlayKeeps(events);
  }

  /** A commit none of whose writes failed leaves no scoped key but the new one. */
  lemma {:induction false} CleanCommitLeavesOneScopedKey(events: seq<Event>)
    ensures
      var s := Play(START, events);
      s.phase.Committed? && !s.phase.failed ==>
        forall j, k :: j in s.keys && k in s.keys && j.scope == CONTROL_PLANE_SCOPE && k.scope == CONTROL_PLANE_SCOPE
          ==> j == k && j.id == s.phase.newId
  {
    PlayKeeps(events);
    var s := Play(START, events);
    assert forall i, j :: 0 <= i < |s.keys| && 0 <= j < |s.keys| && s.keys[i].id == s.keys[j].id ==> i == j;
  }

  /** Minting for the control plane, publishing, and retiring never touch a person's key. */
  lemma {:induction false} UnscopedKeysUntouched(events: seq<Event>, e: Event)
    requires !e.OperatorMints? && !e.OperatorRevokes?
    ensures Unscoped(Step(Play(START, events), e).keys) == Unscoped(Play(START, events).keys)
  {
    PlayKeeps(events);
    var s := Play(START, events);
    match e
    case Mints(secret, id, now, ok) =>
      if Drawn(s, secret, id) {
        UnscopedAppend(s.keys, NewKey(id, CONTROL_PLANE_NAME, secret, now, CONTROL_PLANE_SCOPE));
      }
    case Retires(writes) =>
      if s.phase.Committing? && s.phase.left != [] {
        WithoutScopedKeepsUnscoped(s.keys, s.phase.left[0]);
      }
    case _ =>
  }

  /** Ids stay distinct over every run of mints and revocations, whichever of them fail. */
  lemma {:induction false} IdsStayDistinct(events: seq<Event>)
    ensures DistinctIds(Play(START, events).keys)
  {
    PlayKeeps(events);
  }

  // ----- the fallback -----

  function RetireEvents(writes: seq<bool>): seq<Event> {
    seq(|writes|, i requires 0 <= i < |writes| => Retires(writes[i]))
  }

  lemma {:induction false} CommitRuns(s: State, writes: seq<bool>)
    requires s.phase.Committing? && |writes| <= |s.phase.left|
    ensures Play(s, RetireEvents(writes)).keys == RevokedAll(s.keys, s.phase.left[..|writes|], writes)
    ensures |writes| < |s.phase.left| ==>
      && Play(s, RetireEvents(writes)).phase.Committing?
      && Play(s, RetireEvents(writes)).phase.left == s.phase.left[|writes|..]
    ensures Play(s, RetireEvents(writes)).server == s.server
  {
    if writes != [] {
      var n := |writes| - 1;
      assert RetireEvents(writes)[..n] == RetireEvents(writes[..n]);
      CommitRuns(s, writes[..n]);
      assert s.phase.left[..|writes|][..n] == s.phase.left[..n];
    }
  }

  lemma {:induction false} RevokedAllMember(keys: seq<Key>, ids: seq<string>, writes: seq<bool>, k: Key)
    requires |writes| == |ids| && DistinctIds(keys)
    ensures DistinctIds(RevokedAll(keys, ids, writes))
    ensures k in RevokedAll(keys, ids, writes) <==> k in keys && forall i :: 0 <= i < |ids| && ids[i] == k.id ==> !writes[i]
  {
    if ids != [] {
      var n := |ids| - 1;
      var before := RevokedAll(keys, ids[..n], writes[..n]);
      RevokedAllMember(keys, ids[..n], writes[..n], k);
      WithoutMembers(before, ids[n]);
      assert k in RevokedAll(keys, ids, writes) <==> k in before && (writes[n] ==> k.id != ids[n]);
      assert forall i :: 0 <= i < n ==> ids[..n][i] == ids[i] && writes[..n][i] == writes[i];
    }
  }

  /** A batch reports a failure exactly if a write failed that was to remove a key still there. */
  lemma {:induction false} BatchFailsIff(keys: seq<Key>, ids: seq<string>, writes: seq<bool>)
    requires |writes| == |ids| && DistinctIds(keys)
    ensures RevocationFailed(keys, ids, writes) <==> exists i :: 0 <= i < |ids| && FailsAt(keys, ids, writes, i)
  {
    if ids != [] {
      var n := |ids| - 1;
      BatchFailsIff(keys, ids[..n], writes[..n]);
      forall i | 0 <= i < n
        ensures FailsAt(keys, ids, writes, i) <==> FailsAt(keys, ids[..n], writes[..n], i)
      {
        assert forall j :: 0 <= j < n ==> ids[..n][j] == ids[j] && writes[..n][j] == writes[j];
      }
      forall k
        ensures k in RevokedAll(keys, ids[..n], writes[..n]) <==>
          k in keys && forall j :: 0 <= j < n && ids[..n][j] == k.id ==> !writes[..n][j]
      {
        RevokedAllMember(keys, ids[..n], writes[..n], k);
      }
      LastFails(keys, ids, writes);
      if RevocationFailed(keys, ids[..n], writes[..n]) {
        var i :| 0 <= i < n && FailsAt(keys, ids[..n], writes[..n], i);
        assert FailsAt(keys, ids, writes, i);
      }
    }
  }

  ghost predicate FailsAt(keys: seq<Key>, ids: seq<string>, writes: seq<bool>, i: nat)
    requires i < |ids| == |writes|
  {
    !writes[i] && HasId(keys, ids[i]) && forall j :: 0 <= j < i && ids[j] == ids[i] ==> !writes[j]
  }

  lemma LastFails(keys: seq<Key>, ids: seq<string>, writes: seq<bool>)
    requires |writes| == |ids| && ids != []
    requires
      var n := |ids| - 1;
      forall k :: k in RevokedAll(keys, ids[..n], writes[..n]) <==>
        k in keys && forall j :: 0 <= j < n && ids[..n][j] == k.id ==> !writes[..n][j]
    ensures
      var n := |ids| - 1;
      !writes[n] && HasId(RevokedAll(keys, ids[..n], writes[..n]), ids[n]) <==> FailsAt(keys, ids, writes, n)
  {
    var n := |ids| - 1;
    assert forall j :: 0 <= j < n ==> ids[..n][j] == ids[j] && writes[..n][j] == writes[j];
    var after := RevokedAll(keys, ids[..n], writes[..n]);
    if HasId(after, ids[n]) {
      var k :| k in after && k.id == ids[n];
      assert k in keys;
    }
    if FailsAt(keys, ids, writes, n) {
      var k :| k in keys && k.id == ids[n];
      assert k in after;
    }
  }

  /** So after such a fallback the control plane's key goes on working exactly if no write that
      retires it succeeds. */
  lemma FallbackBreaksKeyIff(s: State, k: Key, writes: seq<bool>)
    requires StoreOk(s) && s.phase.FallingBack? && s.phase.published.Some?
    requires s.phase.superseded != [] && |writes| == |s.phase.superseded|
    requires s.server.Some? && k in s.keys && k.sha == Sha256(s.server.value) && KEY_PREFIX <= s.server.value
    ensures
      var t := Play(Answered(s, Accepted), RetireEvents(writes));
      && t.server == s.server
      && (Authenticates(t.keys, s.server.value) <==>
          forall i :: 0 <= i < |writes| && s.phase.superseded[i] == k.id ==> !writes[i])
  {
    var mid := Answered(s, Accepted);
    var ids := s.phase.superseded;
    CommitRuns(mid, writes);
    assert ids[..|writes|] == ids;
    RevokedAllMember(s.keys, ids, writes, k);
    var after := RevokedAll(s.keys, ids, writes);
    forall j | j in after && j.sha == k.sha
      ensures j == k
    {
      RevokedAllMember(s.keys, ids, writes, j);
    }
  }

  lemma {:induction false} PlayThen(s: State, events: seq<Event>, e: Event)
    ensures Play(s, events + [e]) == Step(Play(s, events), e)
  {
    assert (events + [e])[..|events|] == events;
  }

  const FIRST := [Starts(true, true), Mints("aaaa", "k1", 0, true), Answers(Accepted)]
  const SECOND := [Starts(true, true), Mints("bbbb", "k2", 1, true), Answers(Unprocessable), Answers(Accepted), Retires(true)]

  function KeyOne(): Key {
    NewKey("k1", CONTROL_PLANE_NAME, "aaaa", 0, CONTROL_PLANE_SCOPE)
  }

  function AfterFirst(): State {
    State([KeyOne()], Some(Plaintext("aaaa")), Committed("k1", false), {"k1"}, {Plaintext("aaaa")}, {}, {}, {}, {}, {}, {})
  }

  lemma FirstRegistration()
    ensures Play(START, FIRST) == AfterFirst()
  {
    assert FIRST == [] + [FIRST[0]] + [FIRST[1]] + [FIRST[2]];
    PlayThen(START, [], FIRST[0]);
    PlayThen(START, [] + [FIRST[0]], FIRST[1]);
    PlayThen(START, [] + [FIRST[0]] + [FIRST[1]], FIRST[2]);
    assert Play(START, [] + [FIRST[0]]) == START.(phase := Minting([], true));
  }

  /** A run that ends there: one key is accepted, then an older server answers 422 to the next
      registration and takes the stripped one; the accepted key is revoked. */
  lemma FallbackExample()
    ensures
      var s := Play(Play(START, FIRST), SECOND);
      s.server == Some(Plaintext("aaaa")) && !Authenticates(s.keys, Plaintext("aaaa"))
  {
    FirstRegistration();
    var s := AfterFirst();
    var e := SECOND;
    assert e == [] + [e[0]] + [e[1]] + [e[2]] + [e[3]] + [e[4]];
    PlayThen(s, [], e[0]);
    PlayThen(s, [] + [e[0]], e[1]);
    PlayThen(s, [] + [e[0]] + [e[1]], e[2]);
    PlayThen(s, [] + [e[0]] + [e[1]] + [e[2]], e[3]);
    PlayThen(s, [] + [e[0]] + [e[1]] + [e[2]] + [e[3]], e[4]);
    SecondRegistration();
  }

  function KeyTwo(): Key {
    NewKey("k2", CONTROL_PLANE_NAME, "bbbb", 1, CONTROL_PLANE_SCOPE)
  }

  function AfterFallback(): State {
    AfterFirst().(
      keys := [KeyOne(), KeyTwo()], phase := Committing(["k1"], "k2", false), usedIds := {"k1", "k2"},
      usedSecrets := {Plaintext("aaaa"), Plaintext("bbbb")}, stripped := {Plaintext("aaaa")})
  }

  lemma FallenBack()
    ensures Step(Step(Step(Step(AfterFirst(), SECOND[0]), SECOND[1]), SECOND[2]), SECOND[3]) == AfterFallback()
  {
    var s := AfterFirst();
    assert s.keys[..0] == [];
    assert ScopedIds(s.keys) == ["k1"];
    assert Step(s, SECOND[0]) == s.(phase := Minting(["k1"], true));
    assert Plaintext("aaaa")[8] == 'a' && Plaintext("bbbb")[8] == 'b';
    assert s.keys + [KeyTwo()] == [KeyOne(), KeyTwo()];
  }

  lemma SecondRegistration()
    ensures
      var t := Step(Step(Step(Step(Step(AfterFirst(), SECOND[0]), SECOND[1]), SECOND[2]), SECOND[3]), SECOND[4]);
      t.server == Some(Plaintext("aaaa")) && !Authenticates(t.keys, Plaintext("aaaa"))
  {
    FallenBack();
    assert Without([KeyOne(), KeyTwo()], "k1") == [KeyTwo()];
    assert Plaintext("aaaa")[8] == 'a' && Plaintext("bbbb")[8] == 'b';
  }

  // ----- a request that lands too late -----

  const GIVEN_UP := [Starts(true, true), Mints("aaaa", "k1", 0, true), Answers(GivenUp)]
  const RETRIED := [Starts(true, true), Mints("bbbb", "k2", 1, true), Answers(Accepted), Retires(true)]

  function AfterGivenUp(): State {
    START.(keys := [KeyOne()], usedIds := {"k1"}, usedSecrets := {Plaintext("aaaa")}, late := {Plaintext("aaaa")})
  }

  /** The first request is given up on, the next attempt is accepted and commits, and then the first
      request lands: the control plane's key is gone. */
  lemma LateLandingExample()
    ensures
      var s := Play(START, GIVEN_UP + RETRIED + [Lands(Plaintext("aaaa"))]);
      s.server == Some(Plaintext("aaaa")) && !Authenticates(s.keys, Plaintext("aaaa"))
  {
    var e := RETRIED;
    assert GIVEN_UP == [] + [GIVEN_UP[0]] + [GIVEN_UP[1]] + [GIVEN_UP[2]];
    PlayThen(START, [], GIVEN_UP[0]);
    PlayThen(START, [] + [GIVEN_UP[0]], GIVEN_UP[1]);
    PlayThen(START, [] + [GIVEN_UP[0]] + [GIVEN_UP[1]], GIVEN_UP[2]);
    assert Play(START, [] + [GIVEN_UP[0]]) == START.(phase := Minting([], true));
    assert Play(START, GIVEN_UP) == AfterGivenUp();
    assert GIVEN_UP + RETRIED == GIVEN_UP + [e[0]] + [e[1]] + [e[2]] + [e[3]];
    PlayThen(START, GIVEN_UP, e[0]);
    PlayThen(START, GIVEN_UP + [e[0]], e[1]);
    PlayThen(START, GIVEN_UP + [e[0]] + [e[1]], e[2]);
    PlayThen(START, GIVEN_UP + [e[0]] + [e[1]] + [e[2]], e[3]);
    RetriedAttempt();
    LateLandingBreaksKey(GIVEN_UP + RETRIED, Plaintext("aaaa"));
  }

  lemma RetriedAttempt()
    ensures
      var t := Step(Step(Step(Step(AfterGivenUp(), RETRIED[0]), RETRIED[1]), RETRIED[2]), RETRIED[3]);
      t.phase == Committed("k2", false) && t.late == {Plaintext("aaaa")}
  {
    var s := AfterGivenUp();
    assert s.keys[..0] == [];
    assert ScopedIds(s.keys) == ["k1"];
    assert Step(s, RETRIED[0]) == s.(phase := Minting(["k1"], true));
    assert Plaintext("aaaa")[8] == 'a' && Plaintext("bbbb")[8] == 'b';
  }
}
