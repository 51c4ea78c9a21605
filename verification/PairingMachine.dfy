/** Many connections, the operator, and restarts, interleaved one critical section at a time
    over one pin store.  `Step` is total: an event that cannot happen changes nothing, so a
    statement about every event list is a statement about every interleaving. */
module PairingMachine {
  import opened Wrappers
  import opened Crypto
  import opened Handshake
  import opened Pins
  import opened LanSession

  datatype Node = Node(identity: nat, decoder: Decoder, requireVerify: bool)

  /** Where a connection's read loop is inside a handler. */
  datatype Phase =
    | Idle
    | Activating(outcome: Outcome, seen: Observation)   // pinned, session fields not yet set
    | Recording(entry: PendingPairing)                  // session set, pending entry not yet added
    | Marking(turn: Option<Turn>)                       // trusted pin read, session not yet marked

  datatype Conn = Conn(session: Session, phase: Phase)

  datatype OpenedFrame = OpenedFrame(conn: nat, fromFile: bool)

  /** A frame sent under a key, by a turn of the connection or, without a turn, by its read loop. */
  datatype SealedFrame = SealedFrame(conn: nat, turn: Option<nat>, key: Bytes, fromFile: bool)

  datatype Inference = Inference(handshake: bool, account: string, appKey: string)

  datatype State = State(
    pins: Devices, disk: Devices, forgot: bool,         // forgot: some restart has lost a trusted key
    pending: Pending, clearing: set<string>,            // clearing: verified, entry not yet cleared
    conns: map<nat, Conn>, used: set<nat>,
    openings: seq<OpenedFrame>, sealed: seq<SealedFrame>,
    runs: seq<Inference>, earlier: seq<Inference>)      // earlier: before the last restart

  datatype Event =
    | Connect(c: nat)
    | Disconnect(c: nat)
    | Greeting(c: nat, hello: Option<Hello>, around: Surroundings)
    | Confirming(c: nat, tagText: string, now: int, writes: bool)
    | Activates(c: nat)
    | Records(c: nat)
    | Message(c: nat, content: Content, userId: string, fileKey: Option<Bytes>)
    | Marks(c: nat)
    | TurnSends(c: nat, turn: nat)                      // a generation writes one frame
    | OperatorVerifies(account: string, appKey: string, now: int, writes: bool)
    | OperatorClears(account: string, appKey: string)
    | Restart

  function Fresh(disk: Devices): State {
    State(disk, disk, false, map[], {}, map[], {}, [], [], [], [])
  }

  predicate At(s: State, c: nat, idle: bool) {
    c in s.conns && (s.conns[c].phase.Idle? <==> idle)
  }

  function Put(s: State, c: nat, session: Session, phase: Phase): State {
    s.(conns := s.conns[c := Conn(session, phase)])
  }

  function Saved(s: State, devices: Devices, writes: bool): State {
    s.(pins := devices, disk := if writes then devices else s.disk)
  }

  function Confirm(node: Node, s: State, c: nat, tagText: string, now: int, writes: bool): State
    requires At(s, c, true)
  {
    var session := s.conns[c].session;
    if session.responder.None? then s
    else
      var outcome := FinishedOutcome(session, node.decoder, tagText);
      var finished := Finished(session, node.decoder, tagText);
      if outcome.Err? then Put(s, c, finished, Idle)
      else
        var o := outcome.value;
        var seen := Classify(s.pins, o.account, o.appIdPub);
        if seen != FirstContact then
          Put(s, c, finished, if seen == SafetyNumberChanged then Idle else Activating(o, seen))
        else
          Put(Saved(s, Observed(s.pins, o.account, o.appIdPub, now), writes), c, finished,
              if writes then Activating(o, seen) else Idle)
  }

  function Activate(node: Node, s: State, c: nat): State
    requires c in s.conns && s.conns[c].phase.Activating?
  {
    var Activating(o, seen) := s.conns[c].phase;
    var verified := VerifiedAtOnce(seen, node.requireVerify);
    Put(s, c, Activated(s.conns[c].session, o, verified),
        if verified then Idle else Recording(PendingPairing(o.account, o.appIdPub, o.sas)))
  }

  function Infer(s: State, c: nat, session: Session, turn: Option<Turn>): State {
    if turn.None? then Put(s, c, session, Idle)
    else Put(s.(runs := s.runs + [Inference(session.started, session.account, session.appKey)]), c,
             StartedTurn(session, turn.value), Idle)
  }

  /** The read loop answers an opened envelope under the key that opened it. */
  function Replied(s: State, c: nat, key: Bytes, fromFile: bool): State {
    s.(sealed := s.sealed + [SealedFrame(c, None, key, fromFile)])
  }

  function Receive(s: State, c: nat, content: Content, userId: string, fileKey: Option<Bytes>): State
    requires At(s, c, true)
  {
    var session := s.conns[c].session;
    if !Opens(session, fileKey, content) then s
    else
      var fromFile := SelectKey(session, fileKey).fromFile;
      var s' := s.(openings := s.openings + [OpenedFrame(c, fromFile)]);
      match content.inner
      case UserMessage(prompt) =>
        var turn := if prompt.None? then None else Some(Turn(content.key, fromFile, userId, prompt.value));
        if !MayInfer(session, s.pins) then Replied(s', c, content.key, fromFile)
        else if session.started && !session.verified then Put(s', c, session, Marking(turn))
        else Infer(s', c, session, turn)
      case HealthCheck(_) => Replied(s', c, content.key, fromFile)
      case Stop => Put(s', c, Interrupted(session), Idle)
      case _ => s'
  }

  function Step(node: Node, s: State, e: Event): State {
    match e
    case Connect(c) => if c in s.used then s else Put(s, c, NEW_SESSION, Idle).(used := s.used + {c})
    case Disconnect(c) => s.(conns := s.conns - {c})
    case Greeting(c, hello, around) =>
      if !At(s, c, true) || hello.None? then s
      else Put(s, c, Greeted(s.conns[c].session, node.identity, node.decoder, hello.value, around), Idle)
    case Confirming(c, tagText, now, writes) => if At(s, c, true) then Confirm(node, s, c, tagText, now, writes) else s
    case Activates(c) => if c in s.conns && s.conns[c].phase.Activating? then Activate(node, s, c) else s
    case Records(c) =>
      if c in s.conns && s.conns[c].phase.Recording?
      then Put(s, c, s.conns[c].session, Idle).(pending := WithPending(s.pending, s.conns[c].phase.entry))
      else s
    case Message(c, content, userId, fileKey) => if At(s, c, true) then Receive(s, c, content, userId, fileKey) else s
    case Marks(c) =>
      if c in s.conns && s.conns[c].phase.Marking?
      then Infer(s, c, s.conns[c].session.(verified := true), s.conns[c].phase.turn)
      else s
    case TurnSends(c, turn) =>
      if c !in s.conns || turn >= |s.conns[c].session.turns| then s
      else
        var x := s.conns[c].session.turns[turn];
        s.(sealed := s.sealed + [SealedFrame(c, Some(turn), x.key, x.fromFile)])
    case OperatorVerifies(account, appKey, now, writes) =>
      if !Known(s.pins, account, appKey) then s
      else Saved(s, Verified(s.pins, account, appKey, now), writes).(
             clearing := if writes then s.clearing + {PinKey(account, appKey)} else s.clearing)
    case OperatorClears(account, appKey) =>
      var k := PinKey(account, appKey);
      if k in s.clearing then s.(pending := s.pending - {k}, clearing := s.clearing - {k}) else s
    case Restart =>
      s.(pins := s.disk, forgot := s.forgot || !KeepsTrust(s.pins, s.disk), pending := map[], clearing := {},
         conns := map[], runs := [], earlier := s.earlier + s.runs)
  }

  function Play(node: Node, s: State, events: seq<Event>): State {
    if events == [] then s else Step(node, Play(node, s, events[..|events| - 1]), events[|events| - 1])
  }

  // ----- the invariant -----

  ghost predicate AccountPinned(devices: Devices, account: string) {
    exists k :: k in devices && devices[k].account == account
  }

  ghost predicate Established(s: Session) {
    && s.started && s.responder.Some? && s.responder.value.helloDone && s.responder.value.done
    && s.key == Some(s.responder.value.sessionKey)
    && s.account == s.responder.value.account && s.appKey == s.responder.value.appIdPub
    && NulFree(s.appKey)
  }

  ghost predicate SessionOk(s: Session) {
    && (s.started <==> s.responder.Some?)
    && (s.responder.Some? && s.responder.value.helloDone ==> NulFree(s.responder.value.appIdPub))
    && (s.responder.Some? && s.responder.value.done ==> s.responder.value.helloDone)
    && (s.key.Some? ==> Established(s))
    && (s.verified ==> s.key.Some?)
    && (forall t :: t in s.turns && !t.fromFile ==> s.key == Some(t.key))
    && TrackOk(s)
  }

  /** What a stop would cancel is the newest turn, unless it is cancelled already. */
  ghost predicate TrackOk(s: Session) {
    && s.tracked == (if s.turns != [] && |s.turns| - 1 !in s.cancelled then Some(|s.turns| - 1) else None)
    && (forall i :: i in s.cancelled ==> i < |s.turns|)
  }

  ghost predicate PhaseOk(conn: Conn, devices: Devices) {
    var s := conn.session;
    match conn.phase
    case Idle => true
    case Activating(o, seen) =>
      && s.key.None? && s.responder.Some? && s.responder.value.helloDone && s.responder.value.done
      && o.sessionKey == s.responder.value.sessionKey
      && o.account == s.responder.value.account && o.appIdPub == s.responder.value.appIdPub
      && AccountPinned(devices, o.account)
      && (seen == KnownVerified ==> Trusted(devices, o.account, o.appIdPub))
    case Recording(entry) => NulFree(entry.appKey) && AccountPinned(devices, entry.account)
    case Marking(turn) =>
      && s.key.Some? && Trusted(devices, s.account, s.appKey)
      && (turn.Some? ==> !turn.value.fromFile && s.key == Some(turn.value.key))
  }

  ghost predicate ConnOk(node: Node, conn: Conn, devices: Devices) {
    && SessionOk(conn.session) && PhaseOk(conn, devices)
    && (node.requireVerify && conn.session.verified ==> Trusted(devices, conn.session.account, conn.session.appKey))
  }

  ghost predicate RunsTrusted(runs: seq<Inference>, devices: Devices) {
    forall r :: r in runs && r.handshake ==> NulFree(r.appKey) && Trusted(devices, r.account, r.appKey)
  }

  ghost predicate PendingOk(pending: Pending, devices: Devices) {
    forall k :: k in pending ==>
      && k == PinKey(pending[k].account, pending[k].appKey) && NulFree(pending[k].appKey)
      && AccountPinned(devices, pending[k].account)
  }

  ghost predicate Inv(node: Node, s: State) {
    && Sound(s.pins) && Sound(s.disk)
    && KeepsTrust(s.disk, s.pins)
    && s.conns.Keys <= s.used && (forall o :: o in s.openings ==> o.conn in s.used)
    && (forall c :: c in s.conns ==> ConnOk(node, s.conns[c], s.pins))
    && PendingOk(s.pending, s.pins)
    && (node.requireVerify ==> RunsTrusted(s.runs, s.pins))
    && (node.requireVerify && !s.forgot ==> RunsTrusted(s.earlier, s.pins))
  }

  // ----- each step keeps it -----

  /** What a locked change of the pin map must do for everything else to stand. */
  ghost predicate Grows(before: Devices, after: Devices) {
    && Sound(after) && KeepsTrust(before, after)
    && (forall account :: AccountPinned(before, account) ==> AccountPinned(after, account))
  }

  lemma ObservedGrows(devices: Devices, account: string, appKey: string, now: int)
    requires Sound(devices) && NulFree(appKey)
    ensures Grows(devices, Observed(devices, account, appKey, now))
    ensures Classify(devices, account, appKey) != SafetyNumberChanged ==>
      AccountPinned(Observed(devices, account, appKey, now), account)
  {
    ObservedKeeps(devices, account, appKey, now);
    var after := Observed(devices, account, appKey, now);
    var k := PinKey(account, appKey);
    if k in devices {
      PinKeyInjective(account, appKey, devices[k].account, devices[k].appKey);
      assert AccountPinned(after, account);
    }
    forall a | AccountPinned(devices, a)
      ensures AccountPinned(after, a)
    {
      var j :| j in devices && devices[j].account == a;
      if j !in after {
        assert after[k].account == a;
      } else {
        assert after[j].account == a;
      }
    }
  }

  lemma VerifiedGrows(devices: Devices, account: string, appKey: string, now: int)
    requires Sound(devices)
    ensures Grows(devices, Verified(devices, account, appKey, now))
  {
    VerifiedKeeps(devices, account, appKey, now);
    var after := Verified(devices, account, appKey, now);
    forall a | AccountPinned(devices, a)
      ensures AccountPinned(after, a)
    {
      var j :| j in devices && devices[j].account == a;
      assert after[j].account == a;
    }
  }

  lemma GrowthKeepsConn(node: Node, conn: Conn, before: Devices, after: Devices)
    requires ConnOk(node, conn, before) && Grows(before, after)
    ensures ConnOk(node, conn, after)
  {
  }

  lemma SavedKeeps(node: Node, s: State, after: Devices, writes: bool)
    requires Inv(node, s) && Grows(s.pins, after)
    ensures Inv(node, Saved(s, after, writes))
  {
    var s' := Saved(s, after, writes);
    forall c | c in s'.conns
      ensures ConnOk(node, s'.conns[c], s'.pins)
    {
      GrowthKeepsConn(node, s.conns[c], s.pins, after);
    }
  }

  lemma PutKeeps(node: Node, s: State, c: nat, session: Session, phase: Phase)
    requires Inv(node, s) && c in s.used && ConnOk(node, Conn(session, phase), s.pins)
    ensures Inv(node, Put(s, c, session, phase))
  {
  }

  lemma GreetKeeps(node: Node, s: Session, h: Hello, around: Surroundings)
    requires SessionOk(s)
    ensures SessionOk(Greeted(s, node.identity, node.decoder, h, around))
    ensures s.responder.Some? && s.responder.value.done ==>
      Greeted(s, node.identity, node.decoder, h, around) == s
  {
    var p := if s.responder.Some? then s.responder.value else NewProgress(node.identity);
    if Greet(p, node.decoder, h, around).1.Ok? {
      assert DecodeBase64(node.decoder, h.appIdPub).Some?;
    }
  }

  lemma ConfirmKeeps(node: Node, s: State, c: nat, tagText: string, now: int, writes: bool)
    requires Inv(node, s) && At(s, c, true)
    ensures Inv(node, Confirm(node, s, c, tagText, now, writes))
  {
    var session := s.conns[c].session;
    assert ConnOk(node, s.conns[c], s.pins);
    if session.responder.Some? {
      var outcome := FinishedOutcome(session, node.decoder, tagText);
      var finished := Finished(session, node.decoder, tagText);
      if outcome.Err? {
        PutKeeps(node, s, c, finished, Idle);
      } else {
        PinningKeeps(node, s, c, finished, outcome.value, now, writes);
      }
    }
  }

  lemma PinningKeeps(node: Node, s: State, c: nat, finished: Session, o: Outcome, now: int, writes: bool)
    requires Inv(node, s) && c in s.used && ConnOk(node, Conn(finished, Idle), s.pins)
    requires finished.key.None? && finished.responder.Some? && finished.responder.value.done
    requires o.sessionKey == finished.responder.value.sessionKey
    requires o.account == finished.responder.value.account && o.appIdPub == finished.responder.value.appIdPub
    ensures
      var seen := Classify(s.pins, o.account, o.appIdPub);
      Inv(node, if seen != FirstContact
                then Put(s, c, finished, if seen == SafetyNumberChanged then Idle else Activating(o, seen))
                else Put(Saved(s, Observed(s.pins, o.account, o.appIdPub, now), writes), c, finished,
                         if writes then Activating(o, seen) else Idle))
  {
    var seen, after := Classify(s.pins, o.account, o.appIdPub), Observed(s.pins, o.account, o.appIdPub, now);
    ObservedGrows(s.pins, o.account, o.appIdPub, now);
    ObservedKeeps(s.pins, o.account, o.appIdPub, now);
    if seen != FirstContact {
      PutKeeps(node, s, c, finished, if seen == SafetyNumberChanged then Idle else Activating(o, seen));
    } else {
      SavedKeeps(node, s, after, writes);
      GrowthKeepsConn(node, Conn(finished, Idle), s.pins, after);
      PutKeeps(node, Saved(s, after, writes), c, finished, if writes then Activating(o, seen) else Idle);
    }
  }

  lemma InferKeeps(node: Node, s: State, c: nat, session: Session, turn: Option<Turn>)
    requires Inv(node, s) && c in s.used && ConnOk(node, Conn(session, Idle), s.pins)
    requires session.started ==> session.key.Some? && (node.requireVerify ==> Trusted(s.pins, session.account, session.appKey))
    requires turn.Some? && !turn.value.fromFile ==> session.key == Some(turn.value.key)
    ensures Inv(node, Infer(s, c, session, turn))
  {
    if turn.Some? {
      var t := StartedTurn(session, turn.value);
      assert forall x :: x in t.turns ==> x in session.turns || x == turn.value;
      assert ConnOk(node, Conn(t, Idle), s.pins);
      var run := Inference(session.started, session.account, session.appKey);
      assert forall r :: r in s.runs + [run] ==> r in s.runs || r == run;
    }
  }

  lemma OpenKeeps(node: Node, s: State, c: nat, fromFile: bool)
    requires Inv(node, s) && c in s.used
    ensures Inv(node, s.(openings := s.openings + [OpenedFrame(c, fromFile)]))
  {
    var s' := s.(openings := s.openings + [OpenedFrame(c, fromFile)]);
    assert forall o :: o in s'.openings ==> o in s.openings || o.conn == c;
  }

  lemma ReplyKeeps(node: Node, s: State, c: nat, key: Bytes, fromFile: bool)
    requires Inv(node, s)
    ensures Inv(node, Replied(s, c, key, fromFile))
  {
  }

  lemma {:induction false} ReceiveKeeps(node: Node, s: State, c: nat, content: Content, userId: string, fileKey: Option<Bytes>)
    requires Inv(node, s) && At(s, c, true)
    ensures Inv(node, Receive(s, c, content, userId, fileKey))
  {
    var session := s.conns[c].session;
    if Opens(session, fileKey, content) {
      var fromFile := SelectKey(session, fileKey).fromFile;
      var s' := s.(openings := s.openings + [OpenedFrame(c, fromFile)]);
      assert ConnOk(node, s.conns[c], s'.pins);
      OpenKeeps(node, s, c, fromFile);
      ReplyKeeps(node, s', c, content.key, fromFile);
      match content.inner
      case UserMessage(prompt) =>
        var turn := if prompt.None? then None else Some(Turn(content.key, fromFile, userId, prompt.value));
        GateKeeps(node, s', c, turn);
      case Stop =>
        PutKeeps(node, s', c, Interrupted(session), Idle);
      case _ =>
    }
  }

  lemma GateKeeps(node: Node, s: State, c: nat, turn: Option<Turn>)
    requires Inv(node, s) && At(s, c, true)
    requires turn.Some? ==> (turn.value.fromFile <==> !s.conns[c].session.started)
    requires turn.Some? && !turn.value.fromFile ==> s.conns[c].session.key == Some(turn.value.key)
    requires s.conns[c].session.started ==> s.conns[c].session.key.Some?
    ensures
      var session := s.conns[c].session;
      MayInfer(session, s.pins) ==>
        Inv(node, if session.started && !session.verified then Put(s, c, session, Marking(turn)) else Infer(s, c, session, turn))
  {
    var session := s.conns[c].session;
    assert ConnOk(node, s.conns[c], s.pins);
    if MayInfer(session, s.pins) {
      if session.started && !session.verified {
        PutKeeps(node, s, c, session, Marking(turn));
      } else {
        InferKeeps(node, s, c, session, turn);
      }
    }
  }

  lemma ActivateKeeps(node: Node, s: State, c: nat)
    requires Inv(node, s)
    ensures Inv(node, Step(node, s, Activates(c)))
  {
    if c in s.conns && s.conns[c].phase.Activating? {
      assert ConnOk(node, s.conns[c], s.pins);
      var Activating(o, seen) := s.conns[c].phase;
      var verified := VerifiedAtOnce(seen, node.requireVerify);
      PutKeeps(node, s, c, Activated(s.conns[c].session, o, verified),
               if verified then Idle else Recording(PendingPairing(o.account, o.appIdPub, o.sas)));
    }
  }

  lemma RecordKeeps(node: Node, s: State, c: nat)
    requires Inv(node, s)
    ensures Inv(node, Step(node, s, Records(c)))
  {
    if c in s.conns && s.conns[c].phase.Recording? {
      assert ConnOk(node, s.conns[c], s.pins);
      PutKeeps(node, s, c, s.conns[c].session, Idle);
    }
  }

  lemma MarkKeeps(node: Node, s: State, c: nat)
    requires Inv(node, s)
    ensures Inv(node, Step(node, s, Marks(c)))
  {
    if c in s.conns && s.conns[c].phase.Marking? {
      assert ConnOk(node, s.conns[c], s.pins);
      InferKeeps(node, s, c, s.conns[c].session.(verified := true), s.conns[c].phase.turn);
    }
  }

  lemma SendKeeps(node: Node, s: State, c: nat, turn: nat)
    requires Inv(node, s)
    ensures Inv(node, Step(node, s, TurnSends(c, turn)))
  {
  }

  lemma RestartKeeps(node: Node, s: State)
    requires Inv(node, s)
    ensures Inv(node, Step(node, s, Restart))
  {
    assert forall r :: r in s.earlier + s.runs ==> r in s.earlier || r in s.runs;
  }

  lemma OperatorKeeps(node: Node, s: State, account: string, appKey: string, now: int, writes: bool)
    requires Inv(node, s)
    ensures Inv(node, Step(node, s, OperatorVerifies(account, appKey, now, writes)))
  {
    if Known(s.pins, account, appKey) {
      VerifiedGrows(s.pins, account, appKey, now);
      SavedKeeps(node, s, Verified(s.pins, account, appKey, now), writes);
    }
  }

  lemma ConnectKeeps(node: Node, s: State, c: nat)
    requires Inv(node, s)
    ensures Inv(node, Step(node, s, Connect(c)))
  {
  }

  lemma DisconnectKeeps(node: Node, s: State, c: nat)
    requires Inv(node, s)
    ensures Inv(node, Step(node, s, Disconnect(c)))
  {
  }

  lemma GreetingKeeps(node: Node, s: State, c: nat, hello: Option<Hello>, around: Surroundings)
    requires Inv(node, s)
    ensures Inv(node, Step(node, s, Greeting(c, hello, around)))
  {
    if At(s, c, true) && hello.Some? {
      assert ConnOk(node, s.conns[c], s.pins);
      GreetKeeps(node, s.conns[c].session, hello.value, around);
      PutKeeps(node, s, c, Greeted(s.conns[c].session, node.identity, node.decoder, hello.value, around), Idle);
    }
  }

  lemma ClearKeeps(node: Node, s: State, account: string, appKey: string)
    requires Inv(node, s)
    ensures Inv(node, Step(node, s, OperatorClears(account, appKey)))
  {
  }

  lemma {:induction false} StepKeeps(node: Node, s: State, e: Event)
    requires Inv(node, s)
    ensures Inv(node, Step(node, s, e))
  {
    match e
    case Connect(c) => ConnectKeeps(node, s, c);
    case Disconnect(c) => DisconnectKeeps(node, s, c);
    case Greeting(c, hello, around) => GreetingKeeps(node, s, c, hello, around);
    case Confirming(c, tagText, now, writes) =>
      if At(s, c, true) {
        ConfirmKeeps(node, s, c, tagText, now, writes);
      }
    case Activates(c) => ActivateKeeps(node, s, c);
    case Records(c) => RecordKeeps(node, s, c);
    case Message(c, content, userId, fileKey) =>
      if At(s, c, true) {
        ReceiveKeeps(node, s, c, content, userId, fileKey);
      }
    case Marks(c) => MarkKeeps(node, s, c);
    case TurnSends(c, turn) => SendKeeps(node, s, c, turn);
    case OperatorVerifies(account, appKey, now, writes) => OperatorKeeps(node, s, account, appKey, now, writes);
    case OperatorClears(account, appKey) => ClearKeeps(node, s, account, appKey);
    case Restart => RestartKeeps(node, s);
  }

  lemma {:induction false} PlayKeeps(node: Node, s: State, events: seq<Event>)
    requires Inv(node, s)
    ensures Inv(node, Play(node, s, events))
  {
    if events != [] {
      PlayKeeps(node, s, events[..|events| - 1]);
      StepKeeps(node, Play(node, s, events[..|events| - 1]), events[|events| - 1]);
    }
  }

  // ----- what a run promises -----

  ghost predicate OneKeyPerAccount(runs: seq<Inference>) {
    forall r1, r2 :: r1 in runs && r2 in runs && r1.handshake && r2.handshake && r1.account == r2.account ==>
      r1.appKey == r2.appKey
  }

  lemma TrustedRunsAgree(runs: seq<Inference>, devices: Devices)
    requires Sound(devices) && RunsTrusted(runs, devices)
    ensures OneKeyPerAccount(runs)
  {
    forall r1, r2 | r1 in runs && r2 in runs && r1.handshake && r2.handshake && r1.account == r2.account
      ensures r1.appKey == r2.appKey
    {
      OneTrustedKey(devices, r1.account, r1.appKey, r2.appKey);
    }
  }

  /** With verification required, all inference that handshake sessions of one account ever run
      in one life of the process is under one app key, whatever is interleaved and whichever
      saves fail. */
  lemma {:induction false} InferenceUnderOneKey(node: Node, disk: Devices, events: seq<Event>)
    requires Sound(disk) && node.requireVerify
    ensures OneKeyPerAccount(Play(node, Fresh(disk), events).runs)
  {
    PlayKeeps(node, Fresh(disk), events);
    TrustedRunsAgree(Play(node, Fresh(disk), events).runs, Play(node, Fresh(disk), events).pins);
  }

  /** A restart at i finds the disk without a key that was trusted. */
  predicate ForgetsAt(node: Node, disk: Devices, events: seq<Event>, i: nat) {
    && i < |events| && events[i].Restart?
    && var s := Play(node, Fresh(disk), events[..i]);
    && !KeepsTrust(s.pins, s.disk)
  }

  /** What the flag says: some restart of the run has lost a trusted key. */
  lemma {:induction false} ForgotIffARestartForgets(node: Node, disk: Devices, events: seq<Event>)
    ensures Play(node, Fresh(disk), events).forgot <==> exists i: nat :: ForgetsAt(node, disk, events, i)
  {
    if events != [] {
      var n := |events| - 1;
      ForgotIffARestartForgets(node, disk, events[..n]);
      forall i: nat | i < n
        ensures ForgetsAt(node, disk, events, i) <==> ForgetsAt(node, disk, events[..n], i)
      {
        assert events[..n][..i] == events[..i];
      }
      ForgotStep(node, Play(node, Fresh(disk), events[..n]), events[n]);
      assert ForgetsAt(node, disk, events, n) <==>
        events[n].Restart? && !KeepsTrust(Play(node, Fresh(disk), events[..n]).pins, Play(node, Fresh(disk), events[..n]).disk);
      if Play(node, Fresh(disk), events[..n]).forgot {
        var i: nat :| ForgetsAt(node, disk, events[..n], i);
        assert ForgetsAt(node, disk, events, i);
      }
    }
  }

  lemma ForgotStep(node: Node, s: State, e: Event)
    ensures Step(node, s, e).forgot <==> s.forgot || (e.Restart? && !KeepsTrust(s.pins, s.disk))
  {
    if e.Confirming? {
      if At(s, e.c, true) {
        assert Confirm(node, s, e.c, e.tagText, e.now, e.writes).forgot == s.forgot;
      }
    } else if e.Message? {
      if At(s, e.c, true) {
        assert Receive(s, e.c, e.content, e.userId, e.fileKey).forgot == s.forgot;
      }
    }
  }

  /** The same across restarts, as long as none of them loses a key that had become trusted. */
  lemma {:induction false} InferenceUnderOneKeyAcrossRestarts(node: Node, disk: Devices, events: seq<Event>)
    requires Sound(disk) && node.requireVerify && !Play(node, Fresh(disk), events).forgot
    ensures OneKeyPerAccount(Play(node, Fresh(disk), events).earlier + Play(node, Fresh(disk), events).runs)
  {
    PlayKeeps(node, Fresh(disk), events);
    var s := Play(node, Fresh(disk), events);
    assert forall r :: r in s.earlier + s.runs ==> r in s.earlier || r in s.runs;
    TrustedRunsAgree(s.earlier + s.runs, s.pins);
  }

  /** Two handshake sessions that hold a key and may run inference now agree on the app key. */
  lemma {:induction false} SessionsThatMayInferAgree(node: Node, disk: Devices, events: seq<Event>, c1: nat, c2: nat)
    requires Sound(disk) && node.requireVerify
    ensures
      var s := Play(node, Fresh(disk), events);
      c1 in s.conns && c2 in s.conns ==>
        var a, b := s.conns[c1].session, s.conns[c2].session;
        a.key.Some? && b.key.Some? && a.account == b.account && MayInfer(a, s.pins) && MayInfer(b, s.pins) ==>
          a.appKey == b.appKey
  {
    PlayKeeps(node, Fresh(disk), events);
    var s := Play(node, Fresh(disk), events);
    if c1 in s.conns && c2 in s.conns {
      assert ConnOk(node, s.conns[c1], s.pins) && ConnOk(node, s.conns[c2], s.pins);
      var a, b := s.conns[c1].session, s.conns[c2].session;
      if a.key.Some? && b.key.Some? && a.account == b.account && MayInfer(a, s.pins) && MayInfer(b, s.pins) {
        OneTrustedKey(s.pins, a.account, a.appKey, b.appKey);
      }
    }
  }

  // ----- no downgrade, and key constancy -----

  ghost predicate SessionContinues(x: Session, y: Session) {
    && (x.started ==> y.started)
    && (x.key.Some? ==> y.key == x.key && y.account == x.account && y.appKey == x.appKey && y.responder == x.responder)
  }

  /** b is a later state than a, as one connection sees it. */
  ghost predicate ConnContinues(a: State, b: State, c: nat) {
    c in a.used && c in b.conns ==> c in a.conns && SessionContinues(a.conns[c].session, b.conns[c].session)
  }

  ghost predicate NoDowngrade(a: State, b: State) {
    && |a.openings| <= |b.openings| && b.openings[..|a.openings|] == a.openings
    && forall i :: |a.openings| <= i < |b.openings| && b.openings[i].conn in a.used ==>
         var c := b.openings[i].conn;
         c in a.conns && (a.conns[c].session.started ==> !b.openings[i].fromFile)
  }

  ghost predicate Continues(a: State, b: State) {
    a.used <= b.used && (forall c :: ConnContinues(a, b, c)) && NoDowngrade(a, b)
  }

  lemma ContinuesTransitive(a: State, b: State, d: State)
    requires Continues(a, b) && Continues(b, d)
    ensures Continues(a, d)
  {
    forall c
      ensures ConnContinues(a, d, c)
    {
      assert ConnContinues(a, b, c) && ConnContinues(b, d, c);
    }
    forall i | |a.openings| <= i < |d.openings| && d.openings[i].conn in a.used
      ensures d.openings[i].conn in a.conns && (a.conns[d.openings[i].conn].session.started ==> !d.openings[i].fromFile)
    {
      var c := d.openings[i].conn;
      assert ConnContinues(a, b, c);
      if i < |b.openings| {
        assert d.openings[i] == d.openings[..|b.openings|][i] == b.openings[i];
      }
    }
    assert d.openings[..|a.openings|] == d.openings[..|b.openings|][..|a.openings|];
  }

  /** Only connection c changes, and every envelope opened is opened on it. */
  lemma OneConnContinues(s: State, t: State, c: nat, session: Session, phase: Phase, openedOn: seq<OpenedFrame>)
    requires c in s.conns && t.conns == s.conns && t.used == s.used
    requires SessionContinues(s.conns[c].session, session)
    requires t.openings == s.openings + openedOn
    requires forall o :: o in openedOn ==> o.conn == c && (s.conns[c].session.started ==> !o.fromFile)
    ensures Continues(s, Put(t, c, session, phase))
  {
    assert t.openings[..|s.openings|] == s.openings;
    forall i | |s.openings| <= i < |t.openings|
      ensures t.openings[i] in openedOn
    {
      assert t.openings[i] == openedOn[i - |s.openings|];
    }
  }

  lemma InferContinues(s: State, t: State, c: nat, session: Session, turn: Option<Turn>, openedOn: seq<OpenedFrame>)
    requires c in s.conns && t.conns == s.conns && t.used == s.used
    requires SessionContinues(s.conns[c].session, session)
    requires t.openings == s.openings + openedOn
    requires forall o :: o in openedOn ==> o.conn == c && (s.conns[c].session.started ==> !o.fromFile)
    ensures Continues(s, Infer(t, c, session, turn))
  {
    if turn.None? {
      OneConnContinues(s, t, c, session, Idle, openedOn);
    } else {
      var t' := t.(runs := t.runs + [Inference(session.started, session.account, session.appKey)]);
      OneConnContinues(s, t', c, StartedTurn(session, turn.value), Idle, openedOn);
    }
  }

  lemma ReplyContinues(s: State, t: State, c: nat, key: Bytes, fromFile: bool)
    requires Continues(s, t)
    ensures Continues(s, Replied(t, c, key, fromFile))
  {
    var u := Replied(t, c, key, fromFile);
    assert forall d :: ConnContinues(s, t, d) ==> ConnContinues(s, u, d);
  }

  lemma {:induction false} MessageContinues(node: Node, s: State, c: nat, content: Content, userId: string, fileKey: Option<Bytes>)
    requires At(s, c, true)
    ensures Continues(s, Receive(s, c, content, userId, fileKey))
  {
    var session := s.conns[c].session;
    if Opens(session, fileKey, content) {
      var fromFile := SelectKey(session, fileKey).fromFile;
      var openedOn := [OpenedFrame(c, fromFile)];
      var s' := s.(openings := s.openings + openedOn);
      assert s' == Put(s', c, session, Idle) by {
        assert s.conns[c] == Conn(session, Idle);
      }
      OneConnContinues(s, s', c, session, Idle, openedOn);
      ReplyContinues(s, s', c, content.key, fromFile);
      match content.inner
      case UserMessage(prompt) =>
        var turn := if prompt.None? then None else Some(Turn(content.key, fromFile, userId, prompt.value));
        OneConnContinues(s, s', c, session, Marking(turn), openedOn);
        InferContinues(s, s', c, session, turn, openedOn);
      case Stop => OneConnContinues(s, s', c, Interrupted(session), Idle, openedOn);
      case _ =>
    }
  }

  lemma {:induction false} ConfirmContinues(node: Node, s: State, c: nat, tagText: string, now: int, writes: bool)
    requires Inv(node, s) && At(s, c, true)
    ensures Continues(s, Confirm(node, s, c, tagText, now, writes))
  {
    var session := s.conns[c].session;
    assert ConnOk(node, s.conns[c], s.pins);
    if session.responder.Some? {
      var outcome := FinishedOutcome(session, node.decoder, tagText);
      var finished := Finished(session, node.decoder, tagText);
      assert SessionContinues(session, finished);
      OneConnContinues(s, s, c, finished, Idle, []);
      if outcome.Ok? {
        var o := outcome.value;
        var seen := Classify(s.pins, o.account, o.appIdPub);
        var t := Saved(s, Observed(s.pins, o.account, o.appIdPub, now), writes);
        OneConnContinues(s, s, c, finished, Activating(o, seen), []);
        OneConnContinues(s, t, c, finished, if writes then Activating(o, seen) else Idle, []);
      }
    }
  }

  lemma GreetingContinues(node: Node, s: State, c: nat, hello: Option<Hello>, around: Surroundings)
    requires Inv(node, s)
    ensures Continues(s, Step(node, s, Greeting(c, hello, around)))
  {
    if At(s, c, true) && hello.Some? {
      assert ConnOk(node, s.conns[c], s.pins);
      GreetKeeps(node, s.conns[c].session, hello.value, around);
      OneConnContinues(s, s, c, Greeted(s.conns[c].session, node.identity, node.decoder, hello.value, around), Idle, []);
    }
  }

  lemma ActivateContinues(node: Node, s: State, c: nat)
    requires Inv(node, s)
    ensures Continues(s, Step(node, s, Activates(c)))
  {
    if c in s.conns && s.conns[c].phase.Activating? {
      assert ConnOk(node, s.conns[c], s.pins);
      var Activating(o, seen) := s.conns[c].phase;
      var verified := VerifiedAtOnce(seen, node.requireVerify);
      OneConnContinues(s, s, c, Activated(s.conns[c].session, o, verified),
                       if verified then Idle else Recording(PendingPairing(o.account, o.appIdPub, o.sas)), []);
    }
  }

  lemma MarkContinues(node: Node, s: State, c: nat)
    ensures Continues(s, Step(node, s, Marks(c)))
  {
    if c in s.conns && s.conns[c].phase.Marking? {
      InferContinues(s, s, c, s.conns[c].session.(verified := true), s.conns[c].phase.turn, []);
    }
  }

  lemma RecordContinues(node: Node, s: State, c: nat)
    ensures Continues(s, Step(node, s, Records(c)))
  {
    if c in s.conns && s.conns[c].phase.Recording? {
      var t := s.(pending := WithPending(s.pending, s.conns[c].phase.entry));
      OneConnContinues(s, t, c, s.conns[c].session, Idle, []);
    }
  }

  lemma ConnectContinues(node: Node, s: State, c: nat)
    ensures Continues(s, Step(node, s, Connect(c)))
  {
  }

  lemma DisconnectContinues(node: Node, s: State, c: nat)
    ensures Continues(s, Step(node, s, Disconnect(c)))
  {
  }

  lemma OperatorContinues(node: Node, s: State, e: Event)
    requires e.Restart? || e.OperatorVerifies? || e.OperatorClears? || e.TurnSends?
    ensures Continues(s, Step(node, s, e))
  {
  }

  lemma {:induction false} StepContinues(node: Node, s: State, e: Event)
    requires Inv(node, s)
    ensures Continues(s, Step(node, s, e))
  {
    match e
    case Greeting(c, hello, around) => GreetingContinues(node, s, c, hello, around);
    case Confirming(c, tagText, now, writes) =>
      if At(s, c, true) {
        ConfirmContinues(node, s, c, tagText, now, writes);
      }
    case Activates(c) => ActivateContinues(node, s, c);
    case Records(c) => RecordContinues(node, s, c);
    case Message(c, content, userId, fileKey) =>
      if At(s, c, true) {
        MessageContinues(node, s, c, content, userId, fileKey);
      }
    case Marks(c) => MarkContinues(node, s, c);
    case Connect(c) => ConnectContinues(node, s, c);
    case Disconnect(c) => DisconnectContinues(node, s, c);
    case _ => OperatorContinues(node, s, e);
  }

  /** However a run goes on: a connection that has latched opens nothing more with the file
      key, and a session key once set, with its account and app key, never changes. */
  lemma {:induction false} NoDowngradeAndKeyConstancy(node: Node, s: State, events: seq<Event>)
    requires Inv(node, s)
    ensures Continues(s, Play(node, s, events))
  {
    if events != [] {
      var before := Play(node, s, events[..|events| - 1]);
      NoDowngradeAndKeyConstancy(node, s, events[..|events| - 1]);
      PlayKeeps(node, s, events[..|events| - 1]);
      StepContinues(node, before, events[|events| - 1]);
      ContinuesTransitive(s, before, Play(node, s, events));
    }
  }

  /** Over every run, a stop that is opened cancels the newest turn of its connection and no other. */
  lemma {:induction false} StopCancelsTheNewest(
    node: Node, disk: Devices, events: seq<Event>, c: nat, key: Bytes, userId: string, fileKey: Option<Bytes>)
    requires Sound(disk) && At(Play(node, Fresh(disk), events), c, true)
    requires Opens(Play(node, Fresh(disk), events).conns[c].session, fileKey, SealedUnder(key, Stop))
    ensures
      var s := Play(node, Fresh(disk), events);
      var s', n := Step(node, s, Message(c, SealedUnder(key, Stop), userId, fileKey)), |s.conns[c].session.turns|;
      && c in s'.conns && s'.conns[c].session.turns == s.conns[c].session.turns
      && s'.conns[c].session.cancelled == s.conns[c].session.cancelled + (if n == 0 then {} else {n - 1})
  {
    PlayKeeps(node, Fresh(disk), events);
    var s := Play(node, Fresh(disk), events);
    assert ConnOk(node, s.conns[c], s.pins);
    StopInterrupts(node, s, c, key, userId, fileKey);
    InterruptCancels(s.conns[c].session);
  }

  lemma StopInterrupts(node: Node, s: State, c: nat, key: Bytes, userId: string, fileKey: Option<Bytes>)
    requires At(s, c, true) && Opens(s.conns[c].session, fileKey, SealedUnder(key, Stop))
    ensures
      var s' := Step(node, s, Message(c, SealedUnder(key, Stop), userId, fileKey));
      c in s'.conns && s'.conns[c].session == Interrupted(s.conns[c].session)
  {
  }

  lemma InterruptCancels(x: Session)
    requires TrackOk(x)
    ensures Interrupted(x).turns == x.turns
    ensures Interrupted(x).cancelled == x.cancelled + (if x.turns == [] then {} else {|x.turns| - 1})
  {
  }

  // ----- where the comments promise more -----

  /** A pending entry can be verified exactly while no other key of its account is pinned. */
  lemma {:induction false} PendingVerifiableIff(node: Node, disk: Devices, events: seq<Event>, k: string)
    requires Sound(disk) && k in Play(node, Fresh(disk), events).pending
    ensures
      var s := Play(node, Fresh(disk), events);
      var entry := s.pending[k];
      Known(s.pins, entry.account, entry.appKey) <==>
        !exists d :: d in s.pins && s.pins[d].account == entry.account && s.pins[d].appKey != entry.appKey
  {
    PlayKeeps(node, Fresh(disk), events);
    var s := Play(node, Fresh(disk), events);
    var entry := s.pending[k];
    var d :| d in s.pins && s.pins[d].account == entry.account;
    if Known(s.pins, entry.account, entry.appKey) {
      var own := s.pins[PinKey(entry.account, entry.appKey)];
      PinKeyInjective(entry.account, entry.appKey, own.account, own.appKey);
    } else {
      assert s.pins[d].appKey != entry.appKey;
    }
  }

  lemma NewContactEvicts(devices: Devices, account: string, stale: string, newer: string, now: int)
    requires Sound(devices) && NulFree(stale) && NulFree(newer) && stale != newer
    requires Known(devices, account, stale) && !Trusted(devices, account, stale)
    ensures Classify(devices, account, newer) == FirstContact
    ensures !Known(Observed(devices, account, newer, now), account, stale)
  {
    var k := PinKey(account, stale);
    PinKeyInjective(account, stale, devices[k].account, devices[k].appKey);
    if PinKey(account, newer) in devices {
      var p := devices[PinKey(account, newer)];
      PinKeyInjective(account, newer, p.account, p.appKey);
      assert false;
    }
    if PinKey(account, newer) == k {
      PinKeyInjective(account, newer, account, stale);
      assert false;
    }
  }

  /** A newer first contact evicts an unverified pin but not its pending entry, and the
      operator can then neither verify that entry nor clear it. */
  lemma {:induction false} EvictionLeavesPendingEntry(
    node: Node, s: State, account: string, stale: string, c: nat, tagText: string, newer: string, now: int)
    requires Inv(node, s) && At(s, c, true)
    requires NulFree(stale) && NulFree(newer) && stale != newer
    requires PinKey(account, stale) in s.pending && PinKey(account, stale) !in s.clearing
    requires Known(s.pins, account, stale) && !Trusted(s.pins, account, stale)
    requires s.conns[c].session.responder.Some?
    requires FinishedOutcome(s.conns[c].session, node.decoder, tagText).Ok?
    requires FinishedOutcome(s.conns[c].session, node.decoder, tagText).value.account == account
    requires FinishedOutcome(s.conns[c].session, node.decoder, tagText).value.appIdPub == newer
    ensures
      var s' := Step(node, s, Confirming(c, tagText, now, true));
      && PinKey(account, stale) in s'.pending && !Known(s'.pins, account, stale)
      && (forall later, writes :: Step(node, s', OperatorVerifies(account, stale, later, writes)) == s')
      && Step(node, s', OperatorClears(account, stale)) == s'
  {
    NewContactEvicts(s.pins, account, stale, newer, now);
    ContactPins(node, s, c, tagText, now);
    NothingToVerify(node, Confirm(node, s, c, tagText, now, true), account, stale);
  }

  lemma ContactPins(node: Node, s: State, c: nat, tagText: string, now: int)
    requires At(s, c, true) && s.conns[c].session.responder.Some?
    requires FinishedOutcome(s.conns[c].session, node.decoder, tagText).Ok?
    requires
      var o := FinishedOutcome(s.conns[c].session, node.decoder, tagText).value;
      Classify(s.pins, o.account, o.appIdPub) == FirstContact
    ensures
      var o := FinishedOutcome(s.conns[c].session, node.decoder, tagText).value;
      var s' := Confirm(node, s, c, tagText, now, true);
      s'.pins == Observed(s.pins, o.account, o.appIdPub, now) && s'.pending == s.pending && s'.clearing == s.clearing
  {
  }

  lemma NothingToVerify(node: Node, s: State, account: string, appKey: string)
    requires !Known(s.pins, account, appKey) && PinKey(account, appKey) !in s.clearing
    ensures forall later, writes :: Step(node, s, OperatorVerifies(account, appKey, later, writes)) == s
    ensures Step(node, s, OperatorClears(account, appKey)) == s
  {
  }

  /** Memory is changed before the save and not rolled back: a verification whose save fails
      is reported as failed, lets inference run all the same, and is gone after a restart,
      when another key can be pinned in its place. */
  lemma FailedSaveIsTrustedUntilRestart(node: Node, s: State, account: string, appKey: string, other: string, now: int)
    requires Inv(node, s) && NulFree(appKey) && NulFree(other) && Known(s.pins, account, appKey)
    requires !OtherVerified(s.disk, account, other) && !Known(s.disk, account, other)
    ensures
      var s' := Step(node, s, OperatorVerifies(account, appKey, now, false));
      && Trusted(s'.pins, account, appKey) && s'.disk == s.disk && s'.clearing == s.clearing
      && Classify(Step(node, s', Restart).pins, account, other) == FirstContact
  {
    VerifiedKeeps(s.pins, account, appKey, now);
  }
}
