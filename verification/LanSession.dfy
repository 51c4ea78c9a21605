/** One WebSocket connection and the router that serves it (internal/lanserve/pairing.go and
    router.go): which key opens an envelope, the pairing frames, and the inference gate.
    An envelope is symbolic: it opens under the key that sealed it and no other. */
module LanSession {
  import opened Wrappers
  import opened Crypto
  import opened Handshake
  import opened Pins

  datatype Inner = HealthCheck(text: string) | UserMessage(prompt: Option<string>) | Stop | Unknown | Untyped

  datatype Content = NotBase64 | SealedUnder(key: Bytes, inner: Inner)

  datatype Code = NoKey | InvalidBase64 | DecryptionFailed | NoCode

  datatype Reply =
    | PlainError(code: Code)
    | PairAck(ack: Ack)
    | PairRefused(error: HandshakeError)
    | PairDisabled | PairMalformed | PairOutOfOrder | PinRefused
    | PairResult(verified: bool, sas: Bytes)
    | Sealed(key: Bytes, userId: string, body: SealedText)

  datatype SealedText = Pong(text: string) | HeldForVerification

  /** A generation in progress; it keeps the key it was started with. */
  datatype Turn = Turn(key: Bytes, fromFile: bool, userId: string, prompt: string)

  /** The pairing state of a connection and its generations. */
  datatype Session = Session(
    responder: Option<Progress>, started: bool, key: Option<Bytes>, verified: bool, account: string, appKey: string,
    turns: seq<Turn>, tracked: Option<nat>, cancelled: set<nat>)

  const NEW_SESSION := Session(None, false, None, false, "", "", [], None, {})

  // ----- key selection -----

  datatype Selection = Use(key: Bytes, fromFile: bool) | HandshakeIncomplete | Unpaired

  function SelectKey(s: Session, fileKey: Option<Bytes>): Selection {
    if s.key.Some? then Use(s.key.value, false)
    else if s.started then HandshakeIncomplete
    else if fileKey.Some? then Use(fileKey.value, true)
    else Unpaired
  }

  predicate Opens(s: Session, fileKey: Option<Bytes>, content: Content) {
    var selected := SelectKey(s, fileKey);
    selected.Use? && content.SealedUnder? && content.key == selected.key
  }

  /** Why an envelope that does not open is refused. */
  function RefusalCode(s: Session, fileKey: Option<Bytes>, content: Content): Code {
    if !SelectKey(s, fileKey).Use? then NoKey
    else if content.NotBase64? then InvalidBase64
    else DecryptionFailed
  }

  // ----- the steps of the handlers, one per critical section -----

  function Greeted(s: Session, identity: nat, decoder: Decoder, h: Hello, around: Surroundings): Session {
    var p := if s.responder.Some? then s.responder.value else NewProgress(identity);
    s.(responder := Some(Greet(p, decoder, h, around).0), started := true)
  }

  function GreetReply(s: Session, identity: nat, decoder: Decoder, h: Hello, around: Surroundings): Reply {
    var p := if s.responder.Some? then s.responder.value else NewProgress(identity);
    match Greet(p, decoder, h, around).1
    case Ok(ack) => PairAck(ack)
    case Err(e) => PairRefused(e)
  }

  function Finished(s: Session, decoder: Decoder, tagText: string): Session
    requires s.responder.Some?
  {
    s.(responder := Some(Finish(s.responder.value, decoder, tagText).0))
  }

  function FinishedOutcome(s: Session, decoder: Decoder, tagText: string): Result<Outcome, HandshakeError>
    requires s.responder.Some?
  {
    Finish(s.responder.value, decoder, tagText).1
  }

  predicate VerifiedAtOnce(seen: Observation, requireVerify: bool) {
    seen == KnownVerified || !requireVerify
  }

  function Activated(s: Session, outcome: Outcome, verified: bool): Session {
    s.(key := Some(outcome.sessionKey), verified := verified, account := outcome.account, appKey := outcome.appIdPub)
  }

  /** The gate, read against the pin map as it is now. */
  predicate MayInfer(s: Session, devices: Devices) {
    !s.started || s.verified || Trusted(devices, s.account, s.appKey)
  }

  /** The gate of a router: with pairing disabled there are no pins to read. */
  predicate Admits(s: Session, pins: Option<Devices>) {
    match pins
    case Some(devices) => MayInfer(s, devices)
    case None => !s.started || s.verified
  }

  /** Why an envelope was not opened: nothing to open it with, not an envelope, or sealed otherwise. */
  lemma RefusalCodeMeans(s: Session, fileKey: Option<Bytes>, content: Content)
    requires !Opens(s, fileKey, content)
    ensures
      var key := if s.key.Some? then s.key else if s.started then None else fileKey;
      match RefusalCode(s, fileKey, content)
      case NoKey => key == None
      case InvalidBase64 => key.Some? && content == NotBase64
      case DecryptionFailed => key.Some? && content.SealedUnder? && content.key != key.value
      case NoCode => false
  {
  }

  /** Inference is open to a connection that never began a handshake, to a session once found verified,
      and to one whose key is trusted now; without a registry no key is. */
  lemma GateIs(s: Session, pins: Option<Devices>)
    ensures Admits(s, pins) <==> !s.started || s.verified || (pins.Some? && Trusted(pins.value, s.account, s.appKey))
  {
  }

  function StartedTurn(s: Session, turn: Turn): Session {
    s.(turns := s.turns + [turn], tracked := Some(|s.turns|))
  }

  function Interrupted(s: Session): Session {
    match s.tracked
    case Some(i) => s.(tracked := None, cancelled := s.cancelled + {i})
    case None => s
  }

  // ----- the node-wide registry -----

  datatype PendingPairing = PendingPairing(account: string, appKey: string, sas: Bytes)

  type Pending = map<string, PendingPairing>

  function WithPending(pending: Pending, entry: PendingPairing): Pending {
    pending[PinKey(entry.account, entry.appKey) := entry]
  }

  // ----- what a whole handler makes of the frame -----

  /** A connection, the pins in memory and on disk, and the registry. */
  datatype Paired = Paired(session: Session, devices: Devices, disk: Devices, pending: Pending)

  /** A pair_confirm on a connection with a responder. */
  function Confirmed(x: Paired, decoder: Decoder, requireVerify: bool, tagText: string, now: int, writes: bool): Paired
    requires x.session.responder.Some?
  {
    var outcome := FinishedOutcome(x.session, decoder, tagText);
    var finished := x.(session := Finished(x.session, decoder, tagText));
    if outcome.Err? then finished else Pinned(finished, requireVerify, outcome.value, now, writes)
  }

  predicate PinRejected(devices: Devices, o: Outcome, writes: bool) {
    var seen := Classify(devices, o.account, o.appIdPub);
    seen == SafetyNumberChanged || (seen == FirstContact && !writes)
  }

  /** The rest of it, once the tag was right: memory changes even if the save fails. */
  function Pinned(x: Paired, requireVerify: bool, o: Outcome, now: int, writes: bool): Paired {
    var seen, after := Classify(x.devices, o.account, o.appIdPub), Observed(x.devices, o.account, o.appIdPub, now);
    var verified := VerifiedAtOnce(seen, requireVerify);
    var pinned := x.(devices := after, disk := if seen == FirstContact && writes then after else x.disk);
    if PinRejected(x.devices, o, writes) then pinned
    else
      pinned.(session := Activated(x.session, o, verified),
              pending := if verified then x.pending else WithPending(x.pending, PendingPairing(o.account, o.appIdPub, o.sas)))
  }

  function PinReply(devices: Devices, requireVerify: bool, o: Outcome, writes: bool): Reply {
    var verified := VerifiedAtOnce(Classify(devices, o.account, o.appIdPub), requireVerify);
    if PinRejected(devices, o, writes) then PinRefused else PairResult(verified, if verified then [] else o.sas)
  }

  /** What the app is told is how things stand: refused if the pin is not known and either another
      key of the account is trusted or the first contact could not be saved; otherwise the session
      has its key, is verified exactly if the key was trusted already or no verification is asked
      for, and only if it is not does the operator get an entry to compare, with the code the app is
      given; inference is open exactly if the app is told that it is verified. */
  lemma ReplyTellsTheState(x: Paired, requireVerify: bool, o: Outcome, now: int, writes: bool)
    requires Sound(x.devices) && NulFree(o.appIdPub) && x.session.started
    ensures
      var y, reply := Pinned(x, requireVerify, o, now, writes), PinReply(x.devices, requireVerify, o, writes);
      var k := PinKey(o.account, o.appIdPub);
      if !Known(x.devices, o.account, o.appIdPub) && (OtherVerified(x.devices, o.account, o.appIdPub) || !writes) then
        reply == PinRefused && y.session == x.session && y.pending == x.pending
      else
        && reply.PairResult? && y.session.key == Some(o.sessionKey)
        && y.session.account == o.account && y.session.appKey == o.appIdPub
        && (reply.verified <==> Trusted(x.devices, o.account, o.appIdPub) || !requireVerify)
        && (reply.verified <==> MayInfer(y.session, y.devices))
        && (if reply.verified then reply.sas == [] && y.pending == x.pending
            else reply.sas == o.sas && y.pending == x.pending[k := PendingPairing(o.account, o.appIdPub, o.sas)])
  {
    ObservedKeeps(x.devices, o.account, o.appIdPub, now);
  }

  /** An envelope; pins is None with pairing disabled. */
  function Enveloped(s: Session, pins: Option<Devices>, fileKey: Option<Bytes>, userId: string, content: Content): Session {
    if !Opens(s, fileKey, content) then s
    else
      match content.inner
      case Stop => Interrupted(s)
      case UserMessage(prompt) =>
        var gated := s.(verified := s.verified || s.started);
        if !Admits(s, pins) then s
        else if prompt.None? then gated
        else StartedTurn(gated, Turn(content.key, SelectKey(s, fileKey).fromFile, userId, prompt.value))
      case _ => s
  }

  function EnvelopeReplies(
    s: Session, pins: Option<Devices>, fileKey: Option<Bytes>, userId: string, content: Content): seq<Reply>
  {
    if !Opens(s, fileKey, content) then [PlainError(RefusalCode(s, fileKey, content))]
    else
      match content.inner
      case HealthCheck(text) => [Sealed(content.key, userId, Pong(text))]
      case Stop => []
      case UserMessage(prompt) =>
        if !Admits(s, pins) then [Sealed(content.key, userId, HeldForVerification)]
        else if prompt.None? then [PlainError(NoCode)] else []
      case _ => [PlainError(NoCode)]
  }

  /** An envelope gets one answer, unless it stops a generation or starts one: a plain error if it did
      not open or asks for nothing known, and otherwise a frame under its own key for its own user. */
  lemma EnvelopeIsAnswered(s: Session, pins: Option<Devices>, fileKey: Option<Bytes>, userId: string, content: Content)
    ensures
      var replies, opens := EnvelopeReplies(s, pins, fileKey, userId, content), Opens(s, fileKey, content);
      var asks := opens && content.inner.UserMessage? && Admits(s, pins);
      && (replies == [] <==> opens && (content.inner.Stop? || (asks && content.inner.prompt.Some?)))
      && (replies != [] ==> |replies| == 1 && (replies[0].PlainError? || replies[0].Sealed?))
      && (replies != [] && replies[0].PlainError? <==>
            !opens || content.inner.Unknown? || content.inner.Untyped? || (asks && content.inner.prompt.None?))
      && (opens && replies != [] && replies[0].PlainError? ==> replies[0].code == NoCode)
      && (replies != [] && replies[0].Sealed? ==>
            && replies[0].key == content.key && replies[0].userId == userId
            && match replies[0].body
               case Pong(text) => content.inner == HealthCheck(text)
               case HeldForVerification => content.inner.UserMessage? && !asks)
  {
  }

  class Pairer {
    const pins: PinStore
    const requireVerify: bool
    const identity: nat
    const decoder: Decoder
    var pending: Pending

    constructor (pins: PinStore, requireVerify: bool, identity: nat, decoder: Decoder)
      ensures this.pins == pins && this.requireVerify == requireVerify
      ensures this.identity == identity && this.decoder == decoder && pending == map[]
    {
      this.pins, this.requireVerify, this.identity, this.decoder := pins, requireVerify, identity, decoder;
      pending := map[];
    }

    method RecordPending(entry: PendingPairing)
      modifies this
      ensures pending == WithPending(old(pending), entry)
    {
      pending := pending[PinKey(entry.account, entry.appKey) := entry];
    }

    /** A failed save leaves the key trusted in memory and the entry still pending. */
    method Verify(account: string, appKey: string, now: int, writes: bool) returns (ok: bool)
      requires Sound(pins.devices)
      modifies this, pins
      ensures Sound(pins.devices)
      ensures pins.devices == Verified(old(pins.devices), account, appKey, now)
      ensures ok == (Known(old(pins.devices), account, appKey) && writes)
      ensures pending == if ok then old(pending) - {PinKey(account, appKey)} else old(pending)
      ensures ok ==> pins.OnDisk() == pins.devices
    {
      var found, saved := pins.Verify(account, appKey, now, writes);
      if !found || !saved {
        return false;
      }
      pending := pending - {PinKey(account, appKey)};
      ok := true;
    }
  }

  // ----- the connection and its router -----

  class Connection {
    var sent: seq<Reply>
    var responder: Responder?
    var started: bool
    var key: Option<Bytes>
    var verified: bool
    var account: string
    var appKey: string
    var turns: seq<Turn>
    var tracked: Option<nat>
    var cancelled: set<nat>

    ghost function Owned(): set<object>
      reads this
    {
      if responder == null then {} else {responder}
    }

    function State(): Session
      reads this, Owned()
    {
      Session(if responder == null then None else Some(responder.State()),
              started, key, verified, account, appKey, turns, tracked, cancelled)
    }

    constructor ()
      ensures State() == NEW_SESSION && sent == [] && responder == null
    {
      sent, responder, started, key, verified := [], null, false, None, false;
      account, appKey, turns, tracked, cancelled := "", "", [], None, {};
    }

    method Send(reply: Reply)
      modifies this`sent
      ensures sent == old(sent) + [reply]
    {
      sent := sent + [reply];
    }

    /** Stops the newest generation, once; one that a later message replaced runs on. */
    method CancelGeneration()
      modifies this`tracked, this`cancelled
      ensures State() == Interrupted(old(State()))
    {
      var target := tracked;
      tracked := None;
      if target.Some? {
        cancelled := cancelled + {target.value};
      }
    }
  }

  class Router {
    const pairer: Pairer?

    constructor (pairer: Pairer?)
      ensures this.pairer == pairer
    {
      this.pairer := pairer;
    }

    function Pins(): Option<Devices>
      reads this, if pairer == null then {} else {pairer.pins}
    {
      if pairer == null then None else Some(pairer.pins.devices)
    }

    /** What a pairing frame may change. */
    function Seen(s: Connection): Paired
      requires pairer != null
      reads this, pairer, pairer.pins, s, s.Owned()
    {
      Paired(s.State(), pairer.pins.devices, pairer.pins.OnDisk(), pairer.pending)
    }

    /** The latch is set before the responder runs, so a refused Hello latches too; a frame
        whose fields do not decode never reaches the latch. */
    method HandleHello(s: Connection, hello: Option<Hello>, around: Surroundings)
      requires s.responder != null && pairer != null ==> s.responder.decoder == pairer.decoder
      modifies s, s.Owned()
      ensures s.responder == old(s.responder) || (fresh(s.responder) && pairer != null && s.responder.decoder == pairer.decoder)
      ensures pairer == null || hello.None? ==> s.State() == old(s.State())
      ensures pairer == null ==> s.sent == old(s.sent) + [PairDisabled]
      ensures pairer != null && hello.None? ==> s.sent == old(s.sent) + [PairMalformed]
      ensures pairer != null && hello.Some? ==>
        && s.State() == Greeted(old(s.State()), pairer.identity, pairer.decoder, hello.value, around)
        && s.sent == old(s.sent) + [GreetReply(old(s.State()), pairer.identity, pairer.decoder, hello.value, around)]
    {
      if pairer == null {
        s.Send(PairDisabled);
        return;
      }
      if hello.None? {
        s.Send(PairMalformed);
        return;
      }
      if s.responder == null {
        s.responder := new Responder(pairer.identity, pairer.decoder);
      }
      s.started := true;
      var answer := s.responder.Hello(hello.value, around);
      s.Send(if answer.Ok? then PairAck(answer.value) else PairRefused(answer.error));
    }

    /** What the frame does when confirmation, pinning, activation and the pending entry run
        with nothing in between. */
    method HandleConfirm(s: Connection, tagText: Option<string>, now: int, writes: bool)
      requires s.responder != null && pairer != null ==>
        && s.responder.decoder == pairer.decoder
        && (s.responder.helloDone ==> NulFree(s.responder.appIdPub))
      requires pairer != null ==> Sound(pairer.pins.devices)
      modifies s, s.Owned()
      modifies if pairer == null then {} else {pairer, pairer.pins}
      ensures s.responder == old(s.responder)
      ensures pairer == null || tagText.None? || old(s.responder) == null ==> s.State() == old(s.State())
      ensures pairer == null ==> s.sent == old(s.sent) + [PairDisabled]
      ensures pairer != null && tagText.None? ==> s.sent == old(s.sent) + [PairMalformed]
      ensures pairer != null && tagText.Some? && old(s.responder) == null ==> s.sent == old(s.sent) + [PairOutOfOrder]
      ensures pairer != null && (tagText.None? || old(s.responder) == null) ==> Seen(s) == old(Seen(s))
      ensures pairer != null ==> Sound(pairer.pins.devices)
      ensures pairer != null && tagText.Some? && s.responder != null ==>
        && Seen(s) == Confirmed(old(Seen(s)), pairer.decoder, pairer.requireVerify, tagText.value, now, writes)
        && s.sent == old(s.sent) + [
             match FinishedOutcome(old(s.State()), pairer.decoder, tagText.value)
             case Err(e) => PairRefused(e)
             case Ok(o) => PinReply(old(pairer.pins.devices), pairer.requireVerify, o, writes)]
    {
      if pairer == null {
        s.Send(PairDisabled);
        return;
      }
      if tagText.None? {
        s.Send(PairMalformed);
        return;
      }
      if s.responder == null {
        s.Send(PairOutOfOrder);
        return;
      }
      var confirmed := s.responder.Confirm(tagText.value);
      if confirmed.Err? {
        s.Send(PairRefused(confirmed.error));
        return;
      }
      PinAndActivate(s, confirmed.value, now, writes);
    }

    /** The rest of the frame, once the tag was right. */
    method PinAndActivate(s: Connection, o: Outcome, now: int, writes: bool)
      requires pairer != null && Sound(pairer.pins.devices) && NulFree(o.appIdPub)
      modifies s`sent, s`key, s`verified, s`account, s`appKey, pairer, pairer.pins
      ensures Sound(pairer.pins.devices)
      ensures Seen(s) == Pinned(old(Seen(s)), pairer.requireVerify, o, now, writes)
      ensures s.sent == old(s.sent) + [PinReply(old(pairer.pins.devices), pairer.requireVerify, o, writes)]
    {
      ghost var before := Seen(s);
      var seen, saved := pairer.pins.Observe(o.account, o.appIdPub, now, writes);
      ghost var observed := before.(devices := Observed(before.devices, o.account, o.appIdPub, now),
                                    disk := if seen == FirstContact && writes then pairer.pins.devices else before.disk);
      assert Seen(s) == observed;
      if seen == SafetyNumberChanged || !saved {
        s.Send(PinRefused);
        assert Seen(s) == observed;
        return;
      }
      var verified := seen == KnownVerified || !pairer.requireVerify;
      s.key, s.verified, s.account, s.appKey := Some(o.sessionKey), verified, o.account, o.appIdPub;
      assert Seen(s) == observed.(session := Activated(before.session, o, verified));
      if verified {
        s.Send(PairResult(true, []));
        return;
      }
      pairer.RecordPending(PendingPairing(o.account, o.appIdPub, o.sas));
      s.Send(PairResult(false, o.sas));
    }

    /** A verification that landed after the handshake is picked up here, and remembered. */
    method SessionInferenceAllowed(s: Connection) returns (allowed: bool)
      modifies s`verified
      ensures allowed == Admits(old(s.State()), Pins())
      ensures s.verified == (old(s.verified) || (s.started && allowed))
    {
      if !s.started || s.verified {
        return true;
      }
      if pairer != null {
        var trusted := pairer.pins.IsVerified(s.account, s.appKey);
        if trusted {
          s.verified := true;
          return true;
        }
      }
      allowed := false;
    }

    /** An envelope: opened with the session key once there is one, with nothing while a
        handshake is under way, and with the file key only if no handshake ever started. */
    method HandleEnvelope(s: Connection, content: Content, userId: string, fileKey: Option<Bytes>)
      modifies s`sent, s`verified, s`turns, s`tracked, s`cancelled
      ensures s.State() == Enveloped(old(s.State()), Pins(), fileKey, userId, content)
      ensures s.sent == old(s.sent) + EnvelopeReplies(old(s.State()), Pins(), fileKey, userId, content)
    {
      var key, fromFile := s.key, false;
      if key.None? {
        if s.started {
          s.Send(PlainError(NoKey));
          return;
        }
        key, fromFile := fileKey, true;
      }
      if key.None? {
        s.Send(PlainError(NoKey));
        return;
      }
      if content.NotBase64? {
        s.Send(PlainError(InvalidBase64));
        return;
      }
      if content.key != key.value {
        s.Send(PlainError(DecryptionFailed));
        return;
      }
      RouteInner(s, key.value, fromFile, userId, content.inner);
    }

    /** What an opened envelope asks for. */
    method RouteInner(s: Connection, key: Bytes, fromFile: bool, userId: string, inner: Inner)
      modifies s`sent, s`verified, s`turns, s`tracked, s`cancelled
      ensures s.State() == old(s.State()).(verified := s.verified, turns := s.turns, tracked := s.tracked, cancelled := s.cancelled)
      ensures inner.Stop? ==> s.State() == Interrupted(old(s.State())) && s.sent == old(s.sent)
      ensures inner.Unknown? || inner.Untyped? ==> s.State() == old(s.State()) && s.sent == old(s.sent) + [PlainError(NoCode)]
      ensures inner.HealthCheck? ==>
        s.State() == old(s.State()) && s.sent == old(s.sent) + [Sealed(key, userId, Pong(inner.text))]
      ensures inner.UserMessage? ==>
        if !Admits(old(s.State()), Pins())
        then s.State() == old(s.State()) && s.sent == old(s.sent) + [Sealed(key, userId, HeldForVerification)]
        else
          var gated := old(s.State()).(verified := old(s.verified) || s.started);
          if inner.prompt.None? then s.State() == gated && s.sent == old(s.sent) + [PlainError(NoCode)]
          else
            && s.State() == StartedTurn(gated, Turn(key, fromFile, userId, inner.prompt.value))
            && s.sent == old(s.sent)
    {
      match inner {
        case HealthCheck(text) =>
          s.Send(Sealed(key, userId, Pong(text)));
        case UserMessage(prompt) =>
          var allowed := SessionInferenceAllowed(s);
          if !allowed {
            s.Send(Sealed(key, userId, HeldForVerification));
            return;
          }
          if prompt.None? {
            s.Send(PlainError(NoCode));
            return;
          }
          s.turns, s.tracked := s.turns + [Turn(key, fromFile, userId, prompt.value)], Some(|s.turns|);
        case Stop =>
          s.CancelGeneration();
        case Unknown =>
          s.Send(PlainError(NoCode));
        case Untyped =>
          s.Send(PlainError(NoCode));
      }
    }
  }
}
