/** Runs of the pairing machine, event by event: the converse of the one-key theorem across
    restarts, and the runs in which the comments of the program promise more than it does. */
module PairingRuns {
  import opened Wrappers
  import opened Crypto
  import opened Handshake
  import opened Pins
  import opened LanSession
  import opened PairingMachine

  // ----- an app that pairs -----

  /** What an app sends, the account its assertion is for, and what the node draws for it. */
  datatype App = App(
    account: string, keyText: string, ephText: string, nonceText: string, tagText: string,
    nodeEph: nat, nodeNonce: Bytes)

  const ASSERTION := "assertion"

  function HelloOf(a: App): Hello {
    Hello(a.keyText, a.ephText, a.nonceText, ASSERTION)
  }

  function AroundOf(a: App): Surroundings {
    Surroundings(Some(Assertion(a.keyText, a.account, "")), Some(a.nodeEph), Some(a.nodeNonce))
  }

  function HelloResult(node: Node, a: App): Progress {
    Greet(NewProgress(node.identity), node.decoder, HelloOf(a), AroundOf(a)).0
  }

  /** The Hello is accepted and the tag is the right one. */
  ghost predicate CanPair(node: Node, a: App) {
    var p := HelloResult(node, a);
    && Accepts(NewProgress(node.identity), node.decoder, HelloOf(a), AroundOf(a))
    && DecodeBase64(node.decoder, a.tagText) == Some(AppConfirm(p.sessionKey, p.transcriptHash))
  }

  /** Two app keys of one account. */
  predicate Rivals(a: App, b: App) {
    a.account == b.account && a.keyText != b.keyText
  }

  function PairedSession(node: Node, a: App): Session {
    NEW_SESSION.(responder := Some(HelloResult(node, a).(done := true)), started := true)
  }

  function OutcomeOf(node: Node, a: App): Outcome {
    var p := HelloResult(node, a);
    Outcome(p.sessionKey, p.sas, a.keyText, a.account, "")
  }

  function Handshaking(c: nat, a: App): seq<Event> {
    [Connect(c), Greeting(c, Some(HelloOf(a)), AroundOf(a)), Confirming(c, a.tagText, 0, true)]
  }

  /** The state after the three frames, on a connection not used before. */
  function Handshaken(node: Node, s: State, c: nat, a: App): State {
    var seen := Classify(s.pins, a.account, a.keyText);
    var pinned := if seen == FirstContact then Saved(s, Observed(s.pins, a.account, a.keyText, 0), true) else s;
    Put(pinned, c, PairedSession(node, a), if seen == SafetyNumberChanged then Idle else Activating(OutcomeOf(node, a), seen)).(
        used := s.used + {c})
  }

  lemma {:induction false} PlayAppend(node: Node, s: State, a: seq<Event>, b: seq<Event>)
    ensures Play(node, s, a + b) == Play(node, Play(node, s, a), b)
  {
    if b == [] {
      assert a + b == a;
    } else {
      assert (a + b)[..|a + b| - 1] == a + b[..|b| - 1];
      PlayAppend(node, s, a, b[..|b| - 1]);
    }
  }

  lemma {:induction false} PlayBoth(node: Node, s: State, a: seq<Event>, t: State, b: seq<Event>)
    requires Play(node, s, a) == t
    ensures Play(node, s, a + b) == Play(node, t, b)
  {
    PlayAppend(node, s, a, b);
  }

  lemma PlayOne(node: Node, s: State, e: Event)
    ensures Play(node, s, [e]) == Step(node, s, e)
  {
    assert [e][..0] == [];
  }

  lemma {:induction false} PlayNext(node: Node, s: State, e: Event, rest: seq<Event>)
    ensures Play(node, s, [e] + rest) == Play(node, Step(node, s, e), rest)
  {
    PlayAppend(node, s, [e], rest);
    PlayOne(node, s, e);
  }

  function GreetedState(node: Node, s: State, c: nat, a: App): State {
    Put(s, c, NEW_SESSION.(responder := Some(HelloResult(node, a)), started := true), Idle).(used := s.used + {c})
  }

  lemma PutTwice(conns: map<nat, Conn>, c: nat, x: Conn, y: Conn)
    ensures conns[c := x][c := y] == conns[c := y]
  {
  }

  lemma ConnectAndGreet(node: Node, s: State, c: nat, a: App)
    requires c !in s.used
    ensures Step(node, Step(node, s, Connect(c)), Greeting(c, Some(HelloOf(a)), AroundOf(a))) == GreetedState(node, s, c, a)
  {
    PutTwice(s.conns, c, Conn(NEW_SESSION, Idle), GreetedState(node, s, c, a).conns[c]);
  }

  lemma ConfirmGreeted(node: Node, s: State, c: nat, a: App)
    requires c !in s.used && CanPair(node, a)
    ensures Step(node, GreetedState(node, s, c, a), Confirming(c, a.tagText, 0, true)) == Handshaken(node, s, c, a)
  {
    var g := GreetedState(node, s, c, a);
    var x := g.conns[c].session;
    assert FinishedOutcome(x, node.decoder, a.tagText) == Ok(OutcomeOf(node, a));
    assert Finished(x, node.decoder, a.tagText) == PairedSession(node, a);
    PutTwice(s.conns, c, Conn(x, Idle), Handshaken(node, s, c, a).conns[c]);
  }

  lemma HandshakeRuns(node: Node, s: State, c: nat, a: App)
    requires c !in s.used && CanPair(node, a)
    ensures Play(node, s, Handshaking(c, a)) == Handshaken(node, s, c, a)
  {
    var e1, e2, e3 := Connect(c), Greeting(c, Some(HelloOf(a)), AroundOf(a)), Confirming(c, a.tagText, 0, true);
    assert Handshaking(c, a) == [e1] + ([e2] + [e3]);
    PlayNext(node, s, e1, [e2] + [e3]);
    PlayNext(node, Step(node, s, e1), e2, [e3]);
    ConnectAndGreet(node, s, c, a);
    PlayOne(node, GreetedState(node, s, c, a), e3);
    ConfirmGreeted(node, s, c, a);
  }

  // ----- it asks for inference -----

  function Asking(node: Node, c: nat, a: App): Event {
    Message(c, SealedUnder(HelloResult(node, a).sessionKey, UserMessage(Some("hi"))), "u", None)
  }

  function Ran(a: App): Inference {
    Inference(true, a.account, a.keyText)
  }

  /** With its key trusted already, an app pairs and infers; nothing is saved. */
  function Returning(node: Node, c: nat, a: App): seq<Event> {
    Handshaking(c, a) + ([Activates(c)] + [Asking(node, c, a)])
  }

  ghost predicate Revisited(s: State, t: State, c: nat, a: App) {
    && t.runs == s.runs + [Ran(a)] && t.earlier == s.earlier
    && t.pins == s.pins && t.disk == s.disk && t.used == s.used + {c}
  }

  lemma ReturningInfers(node: Node, s: State, c: nat, a: App)
    requires c !in s.used && CanPair(node, a) && Trusted(s.pins, a.account, a.keyText)
    ensures Revisited(s, Play(node, s, Returning(node, c, a)), c, a)
  {
    var t := Handshaken(node, s, c, a);
    HandshakeRuns(node, s, c, a);
    PlayBoth(node, s, Handshaking(c, a), t, [Activates(c)] + [Asking(node, c, a)]);
    PlayTwo(node, t, Activates(c), Asking(node, c, a));
    ActivatedTrusted(node, s, c, a);
    AskVerified(node, Step(node, t, Activates(c)), c, a);
  }

  lemma AskVerified(node: Node, u: State, c: nat, a: App)
    requires At(u, c, true) && u.conns[c].session == Activated(PairedSession(node, a), OutcomeOf(node, a), true)
    ensures
      var t := Step(node, u, Asking(node, c, a));
      t.runs == u.runs + [Ran(a)] && t == u.(runs := t.runs, conns := t.conns, openings := t.openings)
  {
  }

  lemma PlayTwo(node: Node, s: State, e: Event, f: Event)
    ensures Play(node, s, [e] + [f]) == Step(node, Step(node, s, e), f)
  {
    PlayNext(node, s, e, [f]);
    PlayOne(node, Step(node, s, e), f);
  }

  lemma ActivatedTrusted(node: Node, s: State, c: nat, a: App)
    requires c !in s.used && CanPair(node, a) && Trusted(s.pins, a.account, a.keyText)
    ensures
      var u := Step(node, Handshaken(node, s, c, a), Activates(c));
      && At(u, c, true) && u.conns[c].session == Activated(PairedSession(node, a), OutcomeOf(node, a), true)
      && u == s.(conns := u.conns, used := s.used + {c})
  {
  }

  /** A newcomer pairs, is recorded as pending, verified by the operator, and infers; `writes`
      says whether the save of the verification succeeds. */
  function Contacting(c: nat, a: App): seq<Event> {
    Handshaking(c, a) + ([Activates(c)] + [Records(c)])
  }

  function Newcomer(node: Node, c: nat, a: App, writes: bool): seq<Event> {
    Contacting(c, a) + ([OperatorVerifies(a.account, a.keyText, 0, writes)] + ([Asking(node, c, a)] + [Marks(c)]))
  }

  predicate CanBePinned(devices: Devices, a: App) {
    Classify(devices, a.account, a.keyText) == FirstContact || Classify(devices, a.account, a.keyText) == KnownUnverified
  }

  function Waiting(node: Node, a: App): Conn {
    Conn(Activated(PairedSession(node, a), OutcomeOf(node, a), false), Idle)
  }

  function PendingOf(node: Node, a: App): PendingPairing {
    PendingPairing(a.account, a.keyText, HelloResult(node, a).sas)
  }

  /** What the two steps after the handshake make of a state. */
  function Contacted(node: Node, s: State, c: nat, a: App): State {
    var pins := Observed(s.pins, a.account, a.keyText, 0);
    s.(pins := pins, disk := if Classify(s.pins, a.account, a.keyText) == FirstContact then pins else s.disk,
       conns := s.conns[c := Waiting(node, a)], used := s.used + {c}, pending := WithPending(s.pending, PendingOf(node, a)))
  }

  /** Active, with the pending entry not yet added. */
  function AboutToRecord(node: Node, s: State, c: nat, a: App): State {
    Put(Contacted(node, s, c, a), c, Waiting(node, a).session, Recording(PendingOf(node, a))).(pending := s.pending)
  }

  lemma ActivateContact(node: Node, s: State, c: nat, a: App)
    requires c !in s.used && CanBePinned(s.pins, a) && node.requireVerify && CanPair(node, a)
    ensures Step(node, Handshaken(node, s, c, a), Activates(c)) == AboutToRecord(node, s, c, a)
  {
    var t := Handshaken(node, s, c, a);
    PutTwice(s.conns, c, t.conns[c], AboutToRecord(node, s, c, a).conns[c]);
    PutTwice(s.conns, c, Waiting(node, a), AboutToRecord(node, s, c, a).conns[c]);
  }

  lemma ActivateAndRecord(node: Node, s: State, c: nat, a: App)
    requires c !in s.used && CanBePinned(s.pins, a) && node.requireVerify && CanPair(node, a)
    ensures Step(node, Step(node, Handshaken(node, s, c, a), Activates(c)), Records(c)) == Contacted(node, s, c, a)
  {
    ActivateContact(node, s, c, a);
    var u := AboutToRecord(node, s, c, a);
    PutTwice(s.conns, c, Waiting(node, a), u.conns[c]);
    PutTwice(s.conns, c, u.conns[c], Waiting(node, a));
  }

  lemma ContactWaits(node: Node, s: State, c: nat, a: App)
    requires c !in s.used && CanPair(node, a) && CanBePinned(s.pins, a) && node.requireVerify
    ensures Play(node, s, Contacting(c, a)) == Contacted(node, s, c, a)
  {
    var t := Handshaken(node, s, c, a);
    HandshakeRuns(node, s, c, a);
    PlayBoth(node, s, Handshaking(c, a), t, [Activates(c)] + [Records(c)]);
    PlayTwo(node, t, Activates(c), Records(c));
    ActivateAndRecord(node, s, c, a);
  }

  /** What a newcomer's whole visit changes, but for its connection and its opened envelope. */
  ghost predicate Visited(s: State, t: State, c: nat, a: App, writes: bool) {
    var pins := Observed(s.pins, a.account, a.keyText, 0);
    && t.runs == s.runs + [Ran(a)] && t.earlier == s.earlier && t.used == s.used + {c} && t.forgot == s.forgot
    && t.pins == Verified(pins, a.account, a.keyText, 0) && Trusted(t.pins, a.account, a.keyText)
    && t.disk == if writes then t.pins else if Classify(s.pins, a.account, a.keyText) == FirstContact then pins else s.disk
  }

  lemma VerifyAndAsk(node: Node, s: State, c: nat, a: App, writes: bool)
    requires c !in s.used && CanBePinned(s.pins, a) && Sound(s.pins) && NulFree(a.keyText)
    ensures
      var u := Step(node, Contacted(node, s, c, a), OperatorVerifies(a.account, a.keyText, 0, writes));
      Visited(s, Step(node, Step(node, u, Asking(node, c, a)), Marks(c)), c, a, writes)
  {
    var t := Contacted(node, s, c, a);
    ObservedKeeps(s.pins, a.account, a.keyText, 0);
    VerifiedKeeps(t.pins, a.account, a.keyText, 0);
    AskHeld(node, Step(node, t, OperatorVerifies(a.account, a.keyText, 0, writes)), c, a);
  }

  lemma NewcomerInfers(node: Node, s: State, c: nat, a: App, writes: bool)
    requires c !in s.used && CanPair(node, a) && CanBePinned(s.pins, a) && node.requireVerify && Sound(s.pins)
    ensures Visited(s, Play(node, s, Newcomer(node, c, a, writes)), c, a, writes)
  {
    var verify, ask := OperatorVerifies(a.account, a.keyText, 0, writes), Asking(node, c, a);
    var t := Contacted(node, s, c, a);
    ContactWaits(node, s, c, a);
    PlayBoth(node, s, Contacting(c, a), t, [verify] + ([ask] + [Marks(c)]));
    PlayNext(node, t, verify, [ask] + [Marks(c)]);
    PlayTwo(node, Step(node, t, verify), ask, Marks(c));
    VerifyAndAsk(node, s, c, a, writes);
  }

  /** The gate finds the pin trusted by now, and remembers it. */
  lemma AskHeld(node: Node, u: State, c: nat, a: App)
    requires c in u.conns && u.conns[c] == Waiting(node, a) && Trusted(u.pins, a.account, a.keyText)
    ensures
      var t := Step(node, Step(node, u, Asking(node, c, a)), Marks(c));
      t.runs == u.runs + [Ran(a)] && t == u.(runs := t.runs, conns := t.conns, openings := t.openings)
  {
    var x := Waiting(node, a).session;
    var m := Step(node, u, Asking(node, c, a));
    assert c in m.conns && m.conns[c].session == x && m.conns[c].phase.Marking? && m.conns[c].phase.turn.Some?;
    assert m == u.(conns := m.conns, openings := m.openings);
  }

  // ----- the converse of the one-key theorem -----

  lemma TwoKeysRan(earlier: seq<Inference>, runs: seq<Inference>, a: App, b: App)
    requires a.account == b.account && a.keyText != b.keyText
    ensures !OneKeyPerAccount(earlier + (runs + [Ran(a)]) + [Ran(b)])
  {
    var all := earlier + (runs + [Ran(a)]) + [Ran(b)];
    assert all[|earlier| + |runs|] == Ran(a) && all[|all| - 1] == Ran(b);
    assert Ran(a) in all && Ran(b) in all;
  }

  ghost predicate TrustOnDiskKept(s: State) {
    Sound(s.pins) && Sound(s.disk) && KeepsTrust(s.disk, s.pins)
  }

  function TwoLives(node: Node, c: nat, a: App, d: nat, b: App): seq<Event> {
    Returning(node, c, a) + ([Restart] + Newcomer(node, d, b, true))
  }

  /** b's visit after a restart that found a's key gone. */
  lemma SecondLife(node: Node, t: State, d: nat, b: App)
    requires node.requireVerify && CanPair(node, b) && d !in t.used && Sound(t.disk) && CanBePinned(t.disk, b)
    ensures
      var v := Play(node, t, [Restart] + Newcomer(node, d, b, true));
      v.earlier == t.earlier + t.runs && v.runs == [Ran(b)] && (!KeepsTrust(t.pins, t.disk) ==> v.forgot)
  {
    var u := Step(node, t, Restart);
    PlayNext(node, t, Restart, Newcomer(node, d, b, true));
    NewcomerInfers(node, u, d, b, true);
  }

  /** Two app keys of one account have run inference once these events are played. */
  ghost predicate TwoKeysInfer(node: Node, s: State, events: seq<Event>) {
    var t := Play(node, s, events);
    !OneKeyPerAccount(t.earlier + t.runs)
  }

  lemma {:induction false} ForgettingLetsTwoKeysRun(node: Node, s: State, c: nat, a: App, d: nat, b: App)
    requires TrustOnDiskKept(s) && node.requireVerify && CanPair(node, a) && CanPair(node, b)
    requires Rivals(a, b)
    requires c !in s.used && d !in s.used && c != d
    requires Trusted(s.pins, a.account, a.keyText) && !Trusted(s.disk, a.account, a.keyText)
    ensures TwoKeysInfer(node, s, TwoLives(node, c, a, d, b))
  {
    ReturningInfers(node, s, c, a);
    var t := Play(node, s, Returning(node, c, a));
    PlayBoth(node, s, Returning(node, c, a), t, [Restart] + Newcomer(node, d, b, true));
    ForgottenCanBePinned(s, a, b);
    SecondLife(node, t, d, b);
    TwoKeysRan(s.earlier, s.runs, a, b);
  }

  /** With the trusted key gone from the disk, nothing there stands against another. */
  lemma ForgottenCanBePinned(s: State, a: App, b: App)
    requires TrustOnDiskKept(s)
    requires a.account == b.account && a.keyText != b.keyText && NulFree(a.keyText) && NulFree(b.keyText)
    requires Trusted(s.pins, a.account, a.keyText) && !Trusted(s.disk, a.account, a.keyText)
    ensures CanBePinned(s.disk, b)
  {
    var k := PinKey(a.account, a.keyText);
    PinKeyInjective(a.account, a.keyText, s.pins[k].account, s.pins[k].appKey);
    assert forall j :: j in s.disk && s.disk[j].account == a.account ==> !s.disk[j].verified;
    if PinKey(b.account, b.keyText) in s.disk {
      var p := s.disk[PinKey(b.account, b.keyText)];
      PinKeyInjective(b.account, b.keyText, p.account, p.appKey);
    }
  }

  // ----- apps exist for every decodable key -----

  ghost predicate Decodable(decoder: Decoder, m: Bytes) {
    exists text :: DecodeBase64(decoder, text) == Some(m)
  }

  /** Every byte string has a text, as in base64. */
  ghost predicate Complete(decoder: Decoder) {
    forall m: Bytes :: Decodable(decoder, m)
  }

  function Zeros(n: nat): (m: Bytes)
    ensures Width(m) == n
  {
    if n == 0 then []
    else
      assert ([Byte(0)] + Zeros(n - 1))[1..] == Zeros(n - 1);
      [Byte(0)] + Zeros(n - 1)
  }

  lemma TextOf(decoder: Decoder, m: Bytes) returns (text: string)
    requires Complete(decoder)
    ensures DecodeBase64(decoder, text) == Some(m)
  {
    assert Decodable(decoder, m);
    text :| DecodeBase64(decoder, text) == Some(m);
  }

  lemma Drafted(node: Node, account: string, keyText: string) returns (a: App)
    requires Complete(node.decoder) && DecodePoint(node.decoder, keyText).Some?
    ensures Accepts(NewProgress(node.identity), node.decoder, HelloOf(a), AroundOf(a))
    ensures a.account == account && a.keyText == keyText
  {
    var ephText := TextOf(node.decoder, PublicKey(0));
    var nonceText := TextOf(node.decoder, Zeros(NONCE_LEN));
    a := App(account, keyText, ephText, nonceText, "", 0, Zeros(NONCE_LEN));
  }

  lemma AppFor(node: Node, account: string, keyText: string) returns (a: App)
    requires Complete(node.decoder) && DecodePoint(node.decoder, keyText).Some?
    ensures CanPair(node, a) && a.account == account && a.keyText == keyText
  {
    var draft := Drafted(node, account, keyText);
    var p := HelloResult(node, draft);
    var tagText := TextOf(node.decoder, AppConfirm(p.sessionKey, p.transcriptHash));
    a := draft.(tagText := tagText);
    assert HelloOf(a) == HelloOf(draft) && AroundOf(a) == AroundOf(draft);
  }

  lemma RivalsFor(node: Node, account: string, keyText: string) returns (a: App, b: App)
    requires Complete(node.decoder) && DecodePoint(node.decoder, keyText).Some?
    ensures CanPair(node, a) && CanPair(node, b) && Rivals(a, b) && a.account == account && a.keyText == keyText
  {
    a := AppFor(node, account, keyText);
    var secret := DecodePoint(node.decoder, keyText).value + 1;
    var other := TextOf(node.decoder, PublicKey(secret));
    assert DecodePoint(node.decoder, other) == Some(secret);
    b := AppFor(node, account, other);
  }

  lemma FreshIds(used: set<nat>) returns (c: nat)
    ensures forall i :: i in used ==> i < c
  {
    c := 0;
    var left := used;
    while left != {}
      invariant left <= used && forall i :: i in used && i !in left ==> i < c
      decreases |left|
    {
      var i :| i in left;
      left := left - {i};
      c := if i < c then c else i + 1;
    }
  }

  lemma {:induction false} TwoCanRun(node: Node, s: State, account: string, appKey: string) returns (more: seq<Event>)
    requires TrustOnDiskKept(s) && node.requireVerify && Complete(node.decoder)
    requires DecodePoint(node.decoder, appKey).Some?
    requires Trusted(s.pins, account, appKey) && !Trusted(s.disk, account, appKey)
    ensures TwoKeysInfer(node, s, more)
  {
    var a, b := RivalsFor(node, account, appKey);
    var c := FreshIds(s.used);
    ForgettingLetsTwoKeysRun(node, s, c, a, c + 1, b);
    more := TwoLives(node, c, a, c + 1, b);
  }

  /** The converse: as soon as a restart would lose a trusted key that a session can present, the
      run can go on so that two app keys of the account have run inference. */
  lemma {:induction false} LosingATrustedKeyLetsTwoRun(node: Node, disk: Devices, events: seq<Event>, account: string, appKey: string)
    requires Sound(disk) && node.requireVerify && Complete(node.decoder)
    requires DecodePoint(node.decoder, appKey).Some?
    requires
      var s := Play(node, Fresh(disk), events);
      Trusted(s.pins, account, appKey) && !Trusted(s.disk, account, appKey)
    ensures exists more :: TwoKeysInfer(node, Fresh(disk), events + more)
  {
    PlayKeeps(node, Fresh(disk), events);
    var more := TwoCanRun(node, Play(node, Fresh(disk), events), account, appKey);
    PlayAppend(node, Fresh(disk), events, more);
    assert TwoKeysInfer(node, Fresh(disk), events + more);
  }

  // ----- where the comments promise more -----

  const EMPTY_NODE: State := Fresh(map[])

  /** From an empty store: the save of a's verification fails, a infers all the same, the node
      restarts, and b of the same account is pinned, verified and infers. */
  lemma FailedVerificationRun(node: Node, a: App, b: App)
    requires node.requireVerify && CanPair(node, a) && CanPair(node, b) && Rivals(a, b)
    ensures
      var t := Play(node, EMPTY_NODE, Newcomer(node, 0, a, false) + ([Restart] + Newcomer(node, 1, b, true)));
      t.earlier == [Ran(a)] && t.runs == [Ran(b)] && t.forgot && !OneKeyPerAccount(t.earlier + t.runs)
  {
    NewcomerInfers(node, EMPTY_NODE, 0, a, false);
    var t := Play(node, EMPTY_NODE, Newcomer(node, 0, a, false));
    PlayBoth(node, EMPTY_NODE, Newcomer(node, 0, a, false), t, [Restart] + Newcomer(node, 1, b, true));
    FirstContactIsForgotten(a, b);
    SecondLife(node, t, 1, b);
    TwoKeysRan([], [], a, b);
    assert [] + ([] + [Ran(a)]) == [Ran(a)];
  }

  lemma FirstContactIsForgotten(a: App, b: App)
    requires NulFree(a.keyText) && NulFree(b.keyText) && a.account == b.account && a.keyText != b.keyText
    ensures
      var disk := Observed(map[], a.account, a.keyText, 0);
      Sound(disk) && CanBePinned(disk, b) && !KeepsTrust(Verified(disk, a.account, a.keyText, 0), disk)
  {
    ObservedKeeps(map[], a.account, a.keyText, 0);
    assert PinKey(a.account, a.keyText) in Observed(map[], a.account, a.keyText, 0);
  }

  /** From an empty store: b's first contact evicts a's unverified pin but not its pending entry,
      which the operator can then neither verify nor clear. */
  lemma StalePendingRun(node: Node, a: App, b: App, now: int, writes: bool)
    requires node.requireVerify && CanPair(node, a) && CanPair(node, b) && Rivals(a, b)
    ensures
      var t := Play(node, EMPTY_NODE, Contacting(0, a) + Contacting(1, b));
      && PinKey(a.account, a.keyText) in t.pending && !Known(t.pins, a.account, a.keyText)
      && Known(t.pins, b.account, b.keyText)
      && Step(node, t, OperatorVerifies(a.account, a.keyText, now, writes)) == t
      && Step(node, t, OperatorClears(a.account, a.keyText)) == t
  {
    var t := Contacted(node, EMPTY_NODE, 0, a);
    ContactWaits(node, EMPTY_NODE, 0, a);
    PlayBoth(node, EMPTY_NODE, Contacting(0, a), t, Contacting(1, b));
    ContactEvicts(t.pins, a, b);
    ContactWaits(node, t, 1, b);
    NothingToVerify(node, Contacted(node, t, 1, b), a.account, a.keyText);
  }

  lemma ContactEvicts(devices: Devices, a: App, b: App)
    requires NulFree(a.keyText) && NulFree(b.keyText) && a.account == b.account && a.keyText != b.keyText
    requires devices == map[PinKey(a.account, a.keyText) := Pin(a.account, a.keyText, false, 0, 0)]
    ensures Classify(devices, b.account, b.keyText) == FirstContact
    ensures !Known(Observed(devices, b.account, b.keyText, 0), a.account, a.keyText)
    ensures Known(Observed(devices, b.account, b.keyText, 0), b.account, b.keyText)
  {
    if PinKey(a.account, a.keyText) == PinKey(b.account, b.keyText) {
      PinKeyInjective(a.account, a.keyText, b.account, b.keyText);
    }
  }

  /** From an empty store: once a is verified, b's handshake passes and is refused, its session
      gets no key, and the operator cannot verify b; nothing supersedes a. */
  lemma ChangedKeyRun(node: Node, a: App, b: App, now: int, writes: bool)
    requires node.requireVerify && CanPair(node, a) && CanPair(node, b) && Rivals(a, b)
    ensures
      var t := Play(node, EMPTY_NODE, Newcomer(node, 0, a, true) + Handshaking(1, b));
      && Trusted(t.pins, a.account, a.keyText) && !Known(t.pins, b.account, b.keyText)
      && At(t, 1, true) && t.conns[1].session == PairedSession(node, b) && t.conns[1].session.key.None?
      && Step(node, t, OperatorVerifies(b.account, b.keyText, now, writes)) == t
  {
    NewcomerInfers(node, EMPTY_NODE, 0, a, true);
    var t := Play(node, EMPTY_NODE, Newcomer(node, 0, a, true));
    PlayBoth(node, EMPTY_NODE, Newcomer(node, 0, a, true), t, Handshaking(1, b));
    HandshakeRuns(node, t, 1, b);
    RivalRefused(node, t, a, b, now, writes);
  }

  lemma RivalRefused(node: Node, t: State, a: App, b: App, now: int, writes: bool)
    requires CanPair(node, a) && CanPair(node, b) && Rivals(a, b)
    requires t.pins == Verified(Observed(map[], a.account, a.keyText, 0), a.account, a.keyText, 0)
    ensures
      var u := Handshaken(node, t, 1, b);
      && Trusted(u.pins, a.account, a.keyText) && !Known(u.pins, b.account, b.keyText)
      && At(u, 1, true) && u.conns[1].session == PairedSession(node, b)
      && Step(node, u, OperatorVerifies(b.account, b.keyText, now, writes)) == u
  {
    assert NulFree(a.keyText) && NulFree(b.keyText);
    ObservedKeeps(map[], a.account, a.keyText, 0);
    VerifiedKeeps(Observed(map[], a.account, a.keyText, 0), a.account, a.keyText, 0);
    TrustedKeyIsFinal(t.pins, a.account, a.keyText, b.keyText, now);
  }

  // ----- a node on which two apps can pair -----

  const DEMO_IDENTITY := 7

  /** What is drawn for one handshake: the node's ephemeral secret and nonce, and the app's. */
  datatype Draws = Draws(nodeEph: nat, nodeNonce: Bytes, appEph: nat, appNonce: Bytes)

  predicate Usable(d: Draws) {
    Width(d.nodeNonce) == NONCE_LEN && Width(d.appNonce) == NONCE_LEN
  }

  function DemoTag(secret: nat, d: Draws): Bytes {
    var th := TranscriptHash(Transcript(
      PublicKey(secret), PublicKey(DEMO_IDENTITY), PublicKey(d.appEph), PublicKey(d.nodeEph), d.appNonce, d.nodeNonce,
      [Sha(Ascii(ASSERTION))]));
    AppConfirm(SessionKey(Ecdh(d.nodeEph, d.appEph), Ecdh(DEMO_IDENTITY, secret), th), th)
  }

  /** Each app's key, ephemeral key, nonce and tag have a text of one letter. */
  function DemoDecoded(d1: Draws, d2: Draws, text: string): Option<Bytes> {
    if |text| != 1 then None
    else
      match text[0]
      case 'K' => Some(PublicKey(1))
      case 'E' => Some(PublicKey(d1.appEph))
      case 'N' => Some(d1.appNonce)
      case 'T' => Some(DemoTag(1, d1))
      case 'k' => Some(PublicKey(2))
      case 'e' => Some(PublicKey(d2.appEph))
      case 'n' => Some(d2.appNonce)
      case 't' => Some(DemoTag(2, d2))
      case _ => None
  }

  function Demo(d1: Draws, d2: Draws): Node {
    Node(DEMO_IDENTITY, text => DemoDecoded(d1, d2, text), true)
  }

  function DemoOne(d: Draws): App {
    App("account", "K", "E", "N", "T", d.nodeEph, d.nodeNonce)
  }

  function DemoTwo(d: Draws): App {
    App("account", "k", "e", "n", "t", d.nodeEph, d.nodeNonce)
  }

  lemma PairsWhen(node: Node, a: App, secret: nat, d: Draws)
    requires node.identity == DEMO_IDENTITY && Usable(d) && a.nodeEph == d.nodeEph && a.nodeNonce == d.nodeNonce
    requires DecodeBase64(node.decoder, a.keyText) == Some(PublicKey(secret))
    requires DecodeBase64(node.decoder, a.ephText) == Some(PublicKey(d.appEph))
    requires DecodeBase64(node.decoder, a.nonceText) == Some(d.appNonce)
    requires DecodeBase64(node.decoder, a.tagText) == Some(DemoTag(secret, d))
    ensures CanPair(node, a)
  {
  }

  /** So the runs above exist, whatever the two handshakes draw. */
  lemma DemoAppsPair(d1: Draws, d2: Draws)
    requires Usable(d1) && Usable(d2)
    ensures
      var node, a, b := Demo(d1, d2), DemoOne(d1), DemoTwo(d2);
      node.requireVerify && CanPair(node, a) && CanPair(node, b) && Rivals(a, b)
  {
    PairsWhen(Demo(d1, d2), DemoOne(d1), 1, d1);
    PairsWhen(Demo(d1, d2), DemoTwo(d2), 2, d2);
  }
}
