/** The steps of the pairing machine, run with nothing in between, are the methods of the router and
    the registry: the same session, pins, file, pending entries and sealed replies. */
module Handlers {
  import opened Wrappers
  import opened Crypto
  import opened Handshake
  import opened Pins
  import opened LanSession
  import opened PairingMachine
  import opened PairingHistory
  import opened PairingRuns

  /** What a pairing frame on connection c may change. */
  function SeenBy(s: State, c: nat): Paired
    requires c in s.conns
  {
    Paired(s.conns[c].session, s.pins, s.disk, s.pending)
  }

  /** The state with that changed, and the connection waiting for its next frame. */
  function With(s: State, c: nat, x: Paired): State {
    s.(conns := s.conns[c := Conn(x.session, Idle)], pins := x.devices, disk := x.disk, pending := x.pending)
  }

  lemma NothingWaits(node: Node, s: State, c: nat)
    requires At(s, c, true)
    ensures Step(node, s, Activates(c)) == s && Step(node, s, Records(c)) == s && Step(node, s, Marks(c)) == s
  {
  }

  function Rested(s: State, c: nat, session: Session, pending: Pending): State {
    s.(conns := s.conns[c := Conn(session, Idle)], pending := pending)
  }

  /** The two steps after a pin that was accepted and saved. */
  lemma ActivationRuns(node: Node, s: State, c: nat, o: Outcome, seen: Observation)
    requires c in s.conns && s.conns[c].phase == Activating(o, seen)
    ensures
      var verified := VerifiedAtOnce(seen, node.requireVerify);
      Step(node, Step(node, s, Activates(c)), Records(c)) ==
        Rested(s, c, Activated(s.conns[c].session, o, verified),
               if verified then s.pending else WithPending(s.pending, PendingPairing(o.account, o.appIdPub, o.sas)))
  {
    var u := Step(node, s, Activates(c));
    if VerifiedAtOnce(seen, node.requireVerify) {
      NothingWaits(node, u, c);
    } else {
      var v := Step(node, u, Records(c));
      PutTwice(s.conns, c, u.conns[c], v.conns[c]);
    }
  }

  /** The state after the tag was right: memory and file after the pin, the session not yet active. */
  function AfterPin(s: State, c: nat, finished: Session, o: Outcome, now: int, writes: bool): State {
    var seen, after := Classify(s.pins, o.account, o.appIdPub), Observed(s.pins, o.account, o.appIdPub, now);
    s.(pins := after, disk := if seen == FirstContact && writes then after else s.disk,
       conns := s.conns[c := Conn(finished, if PinRejected(s.pins, o, writes) then Idle else Activating(o, seen))])
  }

  lemma ConfirmPins(node: Node, s: State, c: nat, tagText: string, now: int, writes: bool)
    requires At(s, c, true) && s.conns[c].session.responder.Some?
    ensures
      var x := s.conns[c].session;
      var finished, outcome := Finished(x, node.decoder, tagText), FinishedOutcome(x, node.decoder, tagText);
      Confirm(node, s, c, tagText, now, writes) ==
        if outcome.Err? then Rested(s, c, finished, s.pending) else AfterPin(s, c, finished, outcome.value, now, writes)
  {
  }

  lemma PinningRuns(node: Node, s: State, c: nat, finished: Session, o: Outcome, now: int, writes: bool)
    requires c in s.conns
    ensures
      var x := Paired(finished, s.pins, s.disk, s.pending);
      Step(node, Step(node, AfterPin(s, c, finished, o, now, writes), Activates(c)), Records(c)) ==
        With(s, c, Pinned(x, node.requireVerify, o, now, writes))
  {
    var t := AfterPin(s, c, finished, o, now, writes);
    if PinRejected(s.pins, o, writes) {
      NothingWaits(node, t, c);
    } else {
      var seen := Classify(s.pins, o.account, o.appIdPub);
      ActivationRuns(node, t, c, o, seen);
      PutTwice(s.conns, c, t.conns[c], Conn(Activated(finished, o, VerifiedAtOnce(seen, node.requireVerify)), Idle));
    }
  }

  /** `Confirming`, `Activates`, `Records` are `Router.HandleConfirm`. */
  lemma UninterruptedConfirm(node: Node, s: State, c: nat, tagText: string, now: int, writes: bool)
    requires At(s, c, true) && s.conns[c].session.responder.Some?
    ensures Play(node, s, [Confirming(c, tagText, now, writes)] + ([Activates(c)] + [Records(c)])) ==
      With(s, c, Confirmed(SeenBy(s, c), node.decoder, node.requireVerify, tagText, now, writes))
  {
    var confirming := Confirming(c, tagText, now, writes);
    var t := Confirm(node, s, c, tagText, now, writes);
    PlayNext(node, s, confirming, [Activates(c)] + [Records(c)]);
    PlayTwo(node, t, Activates(c), Records(c));
    ConfirmPins(node, s, c, tagText, now, writes);
    var x := s.conns[c].session;
    var finished, outcome := Finished(x, node.decoder, tagText), FinishedOutcome(x, node.decoder, tagText);
    if outcome.Ok? {
      PinningRuns(node, s, c, finished, outcome.value, now, writes);
    } else {
      NothingWaits(node, t, c);
    }
  }

  /** The frames under a key that these replies are. */
  function SealedIn(c: nat, fromFile: bool, replies: seq<Reply>): seq<SealedFrame> {
    if replies == [] then []
    else
      var rest, r := SealedIn(c, fromFile, replies[..|replies| - 1]), replies[|replies| - 1];
      if r.Sealed? then rest + [SealedFrame(c, None, r.key, fromFile)] else rest
  }

  lemma OneSealed(c: nat, fromFile: bool, r: Reply)
    ensures SealedIn(c, fromFile, []) == []
    ensures SealedIn(c, fromFile, [r]) == if r.Sealed? then [SealedFrame(c, None, r.key, fromFile)] else []
  {
    assert [r][..0] == [];
  }

  /** What a frame may change in the rest of the state. */
  predicate OnlyConns(s: State, t: State) {
    t == s.(conns := t.conns, openings := t.openings, sealed := t.sealed, runs := t.runs)
  }

  predicate ByFile(x: Session) {
    !x.started && x.key.None?
  }

  lemma ReplyRuns(node: Node, s: State, c: nat, content: Content, userId: string, fileKey: Option<Bytes>)
    requires At(s, c, true)
    requires
      var x := s.conns[c].session;
      !Opens(x, fileKey, content) || !content.inner.UserMessage? || !MayInfer(x, s.pins)
    ensures
      var x, t := s.conns[c].session, Receive(s, c, content, userId, fileKey);
      && OnlyConns(s, t) && t.conns == s.conns[c := Conn(Enveloped(x, Some(s.pins), fileKey, userId, content), Idle)]
      && t.sealed == s.sealed + SealedIn(c, ByFile(x), EnvelopeReplies(x, Some(s.pins), fileKey, userId, content))
  {
    var x := s.conns[c].session;
    assert s.conns == s.conns[c := Conn(x, Idle)];
    var replies := EnvelopeReplies(x, Some(s.pins), fileKey, userId, content);
    if replies != [] {
      OneSealed(c, ByFile(x), replies[0]);
    }
  }

  lemma InferRests(s: State, c: nat, x: Session, turn: Option<Turn>)
    ensures
      var t := Infer(s, c, x, turn);
      t == s.(conns := s.conns[c := Conn(if turn.None? then x else StartedTurn(x, turn.value), Idle)], runs := t.runs)
  {
  }

  function TurnFor(x: Session, content: Content, userId: string, fileKey: Option<Bytes>): Option<Turn>
    requires Opens(x, fileKey, content) && content.inner.UserMessage?
  {
    match content.inner.prompt
    case None => None
    case Some(prompt) => Some(Turn(content.key, SelectKey(x, fileKey).fromFile, userId, prompt))
  }

  /** What is left of the connection: marked as verified if it was not, and with its new turn. */
  function Inferred(x: Session, turn: Option<Turn>): Session {
    var gated := x.(verified := x.verified || x.started);
    if turn.None? then gated else StartedTurn(gated, turn.value)
  }

  lemma AdmittedRuns(node: Node, s: State, c: nat, content: Content, userId: string, fileKey: Option<Bytes>)
    requires PastGate(s, c, content, fileKey)
    ensures
      var x, t := s.conns[c].session, Step(node, Receive(s, c, content, userId, fileKey), Marks(c));
      && OnlyConns(s, t) && t.conns == s.conns[c := Conn(Inferred(x, TurnFor(x, content, userId, fileKey)), Idle)]
      && t.sealed == s.sealed
  {
    var x, t := s.conns[c].session, Receive(s, c, content, userId, fileKey);
    var turn := TurnFor(x, content, userId, fileKey);
    var s' := s.(openings := s.openings + [OpenedFrame(c, SelectKey(x, fileKey).fromFile)]);
    if x.started && !x.verified {
      assert t == Put(s', c, x, Marking(turn));
      InferRests(t, c, x.(verified := true), turn);
      PutTwice(s.conns, c, t.conns[c], Step(node, t, Marks(c)).conns[c]);
    } else {
      assert t == Infer(s', c, x, turn);
      InferRests(s', c, x, turn);
      NothingWaits(node, t, c);
    }
  }

  lemma InferenceRuns(node: Node, s: State, c: nat, content: Content, userId: string, fileKey: Option<Bytes>)
    requires PastGate(s, c, content, fileKey)
    ensures
      var x, t := s.conns[c].session, Step(node, Receive(s, c, content, userId, fileKey), Marks(c));
      && OnlyConns(s, t) && t.conns == s.conns[c := Conn(Enveloped(x, Some(s.pins), fileKey, userId, content), Idle)]
      && t.sealed == s.sealed
  {
    AdmittedRuns(node, s, c, content, userId, fileKey);
  }

  /** `Message`, `Marks` are `Router.HandleEnvelope`; nothing but the connection, the logs and the
      list of inferences changes. */
  lemma UninterruptedEnvelope(node: Node, s: State, c: nat, content: Content, userId: string, fileKey: Option<Bytes>)
    requires At(s, c, true)
    ensures
      var x, t := s.conns[c].session, Play(node, s, [Message(c, content, userId, fileKey)] + [Marks(c)]);
      && OnlyConns(s, t) && t.conns == s.conns[c := Conn(Enveloped(x, Some(s.pins), fileKey, userId, content), Idle)]
      && t.sealed == s.sealed + SealedIn(c, ByFile(x), EnvelopeReplies(x, Some(s.pins), fileKey, userId, content))
  {
    var x := s.conns[c].session;
    PlayTwo(node, s, Message(c, content, userId, fileKey), Marks(c));
    if !Opens(x, fileKey, content) || !content.inner.UserMessage? || !MayInfer(x, s.pins) {
      ReplyRuns(node, s, c, content, userId, fileKey);
      NothingWaits(node, Receive(s, c, content, userId, fileKey), c);
    } else {
      InferenceRuns(node, s, c, content, userId, fileKey);
      PromptReplies(x, s.pins, fileKey, userId, content, c);
    }
  }

  lemma PromptReplies(x: Session, pins: Devices, fileKey: Option<Bytes>, userId: string, content: Content, c: nat)
    requires Opens(x, fileKey, content) && content.inner.UserMessage? && MayInfer(x, pins)
    ensures SealedIn(c, ByFile(x), EnvelopeReplies(x, Some(pins), fileKey, userId, content)) == []
  {
    OneSealed(c, ByFile(x), PlainError(NoCode));
  }

  /** `OperatorVerifies`, `OperatorClears` are `Pairer.Verify`, unless another verification of the
      same key is under way. */
  lemma UninterruptedVerify(node: Node, s: State, account: string, appKey: string, now: int, writes: bool)
    requires PinKey(account, appKey) !in s.clearing
    ensures
      var done := Known(s.pins, account, appKey) && writes;
      var after := Verified(s.pins, account, appKey, now);
      Play(node, s, [OperatorVerifies(account, appKey, now, writes)] + [OperatorClears(account, appKey)]) ==
        s.(pins := after, disk := if done then after else s.disk,
           pending := if done then s.pending - {PinKey(account, appKey)} else s.pending)
  {
    PlayTwo(node, s, OperatorVerifies(account, appKey, now, writes), OperatorClears(account, appKey));
  }
}
