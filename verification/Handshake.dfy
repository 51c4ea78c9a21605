/** The node side of the pairing handshake (internal/pairing/handshake.go): a strict
    Hello-then-Confirm responder, one per connection. */
module Handshake {
  import opened Wrappers
  import opened Crypto
  import Pins

  /** What the base64 decoder makes of a text; it is consulted only for texts over its alphabet. */
  type Decoder = string -> Option<Bytes>

  predicate Base64Char(c: char) {
    'A' <= c <= 'Z' || 'a' <= c <= 'z' || '0' <= c <= '9' || c in "+/=\r\n"
  }

  function DecodeBase64(decoder: Decoder, text: string): (r: Option<Bytes>)
    ensures r.Some? ==> Pins.NulFree(text)
  {
    if forall c :: c in text ==> Base64Char(c) then decoder(text) else None
  }

  /** The secret behind a text that is the base64 of a P-256 point. */
  function DecodePoint(decoder: Decoder, text: string): Option<nat> {
    match DecodeBase64(decoder, text)
    case Some(m) => if |m| == 1 && m[0].Point? then Some(m[0].secret) else None
    case None => None
  }

  datatype Hello = Hello(appIdPub: string, appEphPub: string, appNonce: string, assertion: string)
  datatype Ack = Ack(nodeId: Bytes, nodeEph: Bytes, nodeNonce: Bytes, nodeConfirm: Bytes)
  datatype Assertion = Assertion(appIdPub: string, account: string, device: string)
  datatype Outcome = Outcome(sessionKey: Bytes, sas: Bytes, appIdPub: string, account: string, device: string)

  datatype HandshakeError =
    | HelloAlreadyProcessed | BadAppIdPub | BadAppEphPub | BadNonceText | BadNonceLength | MissingAssertion
    | AssertionRejected | AssertionForAnotherKey | NoRandomness
    | ConfirmBeforeHello | ConfirmAlreadyProcessed | BadConfirmText | BadConfirmTag

  /** What the assertion verifier and the random source answer during one Hello. */
  datatype Surroundings = Surroundings(verified: Option<Assertion>, ephemeral: Option<nat>, nonce: Option<Bytes>)

  /** The fields of a responder. */
  datatype Progress = Progress(
    identity: nat, eph: Option<nat>, transcriptHash: Bytes, sessionKey: Bytes, sas: Bytes,
    appIdPub: string, account: string, device: string, helloDone: bool, done: bool)

  function NewProgress(identity: nat): Progress {
    Progress(identity, None, [], [], [], "", "", "", false, false)
  }

  /** Everything Hello checks before it draws an ephemeral key. */
  function HelloObjection(p: Progress, decoder: Decoder, h: Hello, around: Surroundings): Option<HandshakeError> {
    if p.helloDone then Some(HelloAlreadyProcessed)
    else if DecodePoint(decoder, h.appIdPub).None? then Some(BadAppIdPub)
    else if DecodePoint(decoder, h.appEphPub).None? then Some(BadAppEphPub)
    else if DecodeBase64(decoder, h.appNonce).None? then Some(BadNonceText)
    else if Width(DecodeBase64(decoder, h.appNonce).value) != NONCE_LEN then Some(BadNonceLength)
    else if h.assertion == "" then Some(MissingAssertion)
    else if around.verified.None? then Some(AssertionRejected)
    else if around.verified.value.appIdPub != h.appIdPub then Some(AssertionForAnotherKey)
    else None
  }

  predicate GoodNonce(nonce: Option<Bytes>) {
    nonce.Some? && Width(nonce.value) == NONCE_LEN
  }

  ghost predicate Accepts(p: Progress, decoder: Decoder, h: Hello, around: Surroundings) {
    HelloObjection(p, decoder, h, around).None? && around.ephemeral.Some? && GoodNonce(around.nonce)
  }

  /** The node's view of the seven transcript values for a Hello it accepts. */
  function NodeTranscript(p: Progress, decoder: Decoder, h: Hello, eph: nat, nonce: Bytes): Transcript
    requires DecodePoint(decoder, h.appIdPub).Some? && DecodePoint(decoder, h.appEphPub).Some?
    requires DecodeBase64(decoder, h.appNonce).Some?
  {
    Transcript(
      PublicKey(DecodePoint(decoder, h.appIdPub).value), PublicKey(p.identity),
      PublicKey(DecodePoint(decoder, h.appEphPub).value), PublicKey(eph),
      DecodeBase64(decoder, h.appNonce).value, nonce, [Sha(Ascii(h.assertion))])
  }

  function Greet(p: Progress, decoder: Decoder, h: Hello, around: Surroundings): (Progress, Result<Ack, HandshakeError>) {
    var objection := HelloObjection(p, decoder, h, around);
    if objection.Some? then (p, Err(objection.value))
    else if around.ephemeral.None? then (p, Err(NoRandomness))
    else
      var eph := around.ephemeral.value;
      if !GoodNonce(around.nonce) then (p.(eph := Some(eph)), Err(NoRandomness))
      else
        var nonce := around.nonce.value;
        var th := TranscriptHash(NodeTranscript(p, decoder, h, eph, nonce));
        var key := SessionKey(
          Ecdh(eph, DecodePoint(decoder, h.appEphPub).value), Ecdh(p.identity, DecodePoint(decoder, h.appIdPub).value), th);
        var assertion := around.verified.value;
        (p.(eph := Some(eph), transcriptHash := th, sessionKey := key, sas := Sas(key),
            appIdPub := assertion.appIdPub, account := assertion.account, device := assertion.device, helloDone := true),
         Ok(Ack(PublicKey(p.identity), PublicKey(eph), nonce, NodeConfirm(key, th))))
  }

  function Finish(p: Progress, decoder: Decoder, tagText: string): (Progress, Result<Outcome, HandshakeError>) {
    if !p.helloDone then (p, Err(ConfirmBeforeHello))
    else if p.done then (p, Err(ConfirmAlreadyProcessed))
    else
      var tag := DecodeBase64(decoder, tagText);
      if tag.None? then (p, Err(BadConfirmText))
      else if tag.value != AppConfirm(p.sessionKey, p.transcriptHash) then (p, Err(BadConfirmTag))
      else (p.(done := true), Ok(Outcome(p.sessionKey, p.sas, p.appIdPub, p.account, p.device)))
  }

  // ----- mutual agreement -----

  lemma PointWidth(secret: nat)
    ensures Width(PublicKey(secret)) == 65
  {
    assert PublicKey(secret)[1..] == [];
  }

  lemma NodeTranscriptFits(p: Progress, decoder: Decoder, h: Hello, around: Surroundings)
    requires Accepts(p, decoder, h, around)
    ensures NodeTranscript(p, decoder, h, around.ephemeral.value, around.nonce.value).Fits()
  {
    PointWidth(DecodePoint(decoder, h.appIdPub).value);
    PointWidth(p.identity);
    PointWidth(DecodePoint(decoder, h.appEphPub).value);
    PointWidth(around.ephemeral.value);
    var digest := [Sha(Ascii(h.assertion))];
    assert digest[1..] == [];
    assert Width(digest) == 32;
  }

  /** An accepted tag was made with the node's own key over the node's own transcript. */
  lemma AcceptedTagFixesKeyAndTranscript(
    p: Progress, decoder: Decoder, h: Hello, around: Surroundings, tagText: string, key: Bytes, view: Transcript)
    requires Accepts(p, decoder, h, around) && !p.done && view.Fits()
    requires DecodeBase64(decoder, tagText) == Some(AppConfirm(key, TranscriptHash(view)))
    ensures
      var greeted := Greet(p, decoder, h, around).0;
      Finish(greeted, decoder, tagText).1.Ok? <==>
        key == greeted.sessionKey && view == NodeTranscript(p, decoder, h, around.ephemeral.value, around.nonce.value)
  {
    NodeTranscriptFits(p, decoder, h, around);
    var greeted := Greet(p, decoder, h, around).0;
    AppTagFixesInputs(key, view, greeted.sessionKey,
      NodeTranscript(p, decoder, h, around.ephemeral.value, around.nonce.value));
  }

  /** The key an app with these secrets derives from what it saw. */
  function AppSessionKey(appId: nat, appEph: nat, nodeId: nat, nodeEph: nat, view: Transcript): Bytes {
    SessionKey(Ecdh(appEph, nodeEph), Ecdh(appId, nodeId), TranscriptHash(view))
  }

  /** An app that follows the protocol is accepted exactly when it and the node saw the same
      seven values, and then both hold one key. */
  lemma ConfirmAcceptsIffViewsAgree(
    p: Progress, decoder: Decoder, h: Hello, around: Surroundings, tagText: string,
    appId: nat, appEph: nat, nodeId: nat, nodeEph: nat, view: Transcript)
    requires Accepts(p, decoder, h, around) && !p.done && view.Fits()
    requires view.appId == PublicKey(appId) && view.appEph == PublicKey(appEph)
    requires view.nodeId == PublicKey(nodeId) && view.nodeEph == PublicKey(nodeEph)
    requires DecodeBase64(decoder, tagText) ==
      Some(AppConfirm(AppSessionKey(appId, appEph, nodeId, nodeEph, view), TranscriptHash(view)))
    ensures
      var greeted := Greet(p, decoder, h, around).0;
      var finished := Finish(greeted, decoder, tagText).1;
      && (finished.Ok? <==> view == NodeTranscript(p, decoder, h, around.ephemeral.value, around.nonce.value))
      && (finished.Ok? ==> finished.value.sessionKey == AppSessionKey(appId, appEph, nodeId, nodeEph, view))
  {
    var key := AppSessionKey(appId, appEph, nodeId, nodeEph, view);
    AcceptedTagFixesKeyAndTranscript(p, decoder, h, around, tagText, key, view);
    var node := NodeTranscript(p, decoder, h, around.ephemeral.value, around.nonce.value);
    if view == node {
      assert PublicKey(appId)[0] == node.appId[0] && PublicKey(appEph)[0] == node.appEph[0];
      assert PublicKey(nodeId)[0] == node.nodeId[0] && PublicKey(nodeEph)[0] == node.nodeEph[0];
      EcdhCommutes(appId, nodeId);
      EcdhCommutes(appEph, nodeEph);
    }
  }

  // ----- the acknowledgement, as the app reads it -----

  /** What a side with this secret computes from the other's public point, None if it is none. */
  function AgreedWith(secret: nat, point: Bytes): Option<Bytes> {
    if |point| == 1 && point[0].Point? then Some(Ecdh(secret, point[0].secret)) else None
  }

  /** The transcript an app puts together from what it sent and what the acknowledgement says. */
  function ViewOf(appId: nat, appEph: nat, appNonce: Bytes, assertion: string, ack: Ack): Transcript {
    Transcript(PublicKey(appId), ack.nodeId, PublicKey(appEph), ack.nodeEph, appNonce, ack.nodeNonce, [Sha(Ascii(assertion))])
  }

  /** The key it derives, None if the acknowledgement holds no points. */
  function KeyFrom(appId: nat, appEph: nat, appNonce: Bytes, assertion: string, ack: Ack): Option<Bytes> {
    match (AgreedWith(appEph, ack.nodeEph), AgreedWith(appId, ack.nodeId))
    case (Some(ee), Some(ss)) => Some(SessionKey(ee, ss, TranscriptHash(ViewOf(appId, appEph, appNonce, assertion, ack))))
    case _ => None
  }

  /** This Hello carries these app keys and this nonce. */
  predicate SentBy(decoder: Decoder, h: Hello, appId: nat, appEph: nat, appNonce: Bytes) {
    && DecodePoint(decoder, h.appIdPub) == Some(appId) && DecodePoint(decoder, h.appEphPub) == Some(appEph)
    && DecodeBase64(decoder, h.appNonce) == Some(appNonce)
  }

  /** A Hello is accepted exactly if it is the first to pass, its keys are points, its nonce has the
      right length, its assertion is there and verified for this very app key, and the node could
      draw what it needs. */
  lemma HelloAcceptedIff(p: Progress, decoder: Decoder, h: Hello, around: Surroundings)
    ensures Greet(p, decoder, h, around).1.Ok? <==>
      && !p.helloDone && h.assertion != ""
      && (exists appId, appEph, appNonce :: SentBy(decoder, h, appId, appEph, appNonce) && Width(appNonce) == 16)
      && around.verified.Some? && around.verified.value.appIdPub == h.appIdPub
      && around.ephemeral.Some? && around.nonce.Some? && Width(around.nonce.value) == 16
    ensures Greet(p, decoder, h, around).1.Ok? <==> Accepts(p, decoder, h, around)
    ensures Greet(p, decoder, h, around).1.Err? ==>
      Greet(p, decoder, h, around).0 == p || Greet(p, decoder, h, around).0 == p.(eph := around.ephemeral)
  {
    if Accepts(p, decoder, h, around) {
      assert SentBy(decoder, h, DecodePoint(decoder, h.appIdPub).value, DecodePoint(decoder, h.appEphPub).value,
                    DecodeBase64(decoder, h.appNonce).value);
    }
  }

  /** Every refusal of a Hello says what is wrong with it. */
  lemma HelloRefusalsMean(p: Progress, decoder: Decoder, h: Hello, around: Surroundings)
    ensures
      match Greet(p, decoder, h, around).1
      case Ok(_) => true
      case Err(HelloAlreadyProcessed) => p.helloDone
      case Err(BadAppIdPub) => DecodePoint(decoder, h.appIdPub).None?
      case Err(BadAppEphPub) => DecodePoint(decoder, h.appEphPub).None?
      case Err(BadNonceText) => DecodeBase64(decoder, h.appNonce).None?
      case Err(BadNonceLength) => exists nonce :: DecodeBase64(decoder, h.appNonce) == Some(nonce) && Width(nonce) != 16
      case Err(MissingAssertion) => h.assertion == ""
      case Err(AssertionRejected) => around.verified.None?
      case Err(AssertionForAnotherKey) => around.verified.Some? && around.verified.value.appIdPub != h.appIdPub
      case Err(NoRandomness) => around.ephemeral.None? || around.nonce.None? || Width(around.nonce.value) != 16
      case Err(_) => false
    ensures p.helloDone ==> Greet(p, decoder, h, around).1 == Err(HelloAlreadyProcessed)
  {
  }

  /** A Confirm is refused before a Hello, after it was accepted once, for a text that does not decode
      and for a tag that is not the right one, and for nothing else. */
  lemma ConfirmRefusalsMean(p: Progress, decoder: Decoder, tagText: string)
    ensures
      var tag, answer := DecodeBase64(decoder, tagText), Finish(p, decoder, tagText).1;
      if !p.helloDone then answer == Err(ConfirmBeforeHello)
      else if p.done then answer == Err(ConfirmAlreadyProcessed)
      else if tag.None? then answer == Err(BadConfirmText)
      else answer == Err(BadConfirmTag) <==> tag != Some(AppConfirm(p.sessionKey, p.transcriptHash))
    ensures Finish(p, decoder, tagText).0 == p.(done := p.done || Finish(p, decoder, tagText).1.Ok?)
  {
  }

  /** From the acknowledgement alone the app that sent an accepted Hello finds the node's identity
      and a right node tag, derives the node's key, and its own tag is then accepted, for the
      account of the verified assertion, with one key and one code on both sides. */
  lemma AckCompletesHandshake(
    p: Progress, decoder: Decoder, h: Hello, around: Surroundings, appId: nat, appEph: nat, appNonce: Bytes, tagText: string)
    requires Accepts(p, decoder, h, around) && !p.done && SentBy(decoder, h, appId, appEph, appNonce)
    ensures
      var (greeted, answer) := Greet(p, decoder, h, around);
      && answer.Ok? && greeted.eph == around.ephemeral
      && var ack, key := answer.value, KeyFrom(appId, appEph, appNonce, h.assertion, answer.value);
      && var th := TranscriptHash(ViewOf(appId, appEph, appNonce, h.assertion, ack));
      && ack.nodeId == PublicKey(p.identity) && Some(ack.nodeEph) == PublicOf(around.ephemeral) && Some(ack.nodeNonce) == around.nonce
      && key.Some? && ack.nodeConfirm == NodeConfirm(key.value, th)
      && (DecodeBase64(decoder, tagText) == Some(AppConfirm(key.value, th)) ==>
           var outcome := Finish(greeted, decoder, tagText).1;
           && outcome.Ok? && outcome.value.sessionKey == key.value && outcome.value.sas == Sas(key.value)
           && Some(Assertion(outcome.value.appIdPub, outcome.value.account, outcome.value.device)) == around.verified)
  {
    EcdhCommutes(appId, p.identity);
    EcdhCommutes(appEph, around.ephemeral.value);
  }

  function PublicOf(secret: Option<nat>): Option<Bytes> {
    match secret case None => None case Some(x) => Some(PublicKey(x))
  }

  /** The tag that the node itself sent never completes a handshake, here or on any responder; so
      nobody gets through without making a tag of his own. */
  lemma ReflectedTagRejected(
    p: Progress, decoder: Decoder, h: Hello, around: Surroundings, other: Progress, tagText: string)
    requires Greet(p, decoder, h, around).1.Ok?
    requires DecodeBase64(decoder, tagText) == Some(Greet(p, decoder, h, around).1.value.nodeConfirm)
    ensures Finish(other, decoder, tagText).1.Err? && Finish(other, decoder, tagText).0 == other
  {
    var greeted := Greet(p, decoder, h, around).0;
    LabelsNeverCoincide(other.sessionKey, other.transcriptHash, greeted.sessionKey, greeted.transcriptHash);
  }

  // ----- one-shot: over any sequence of calls -----

  datatype Call = HelloCall(h: Hello, around: Surroundings) | ConfirmCall(tagText: string)

  function Called(p: Progress, decoder: Decoder, call: Call): Progress {
    match call
    case HelloCall(h, around) => Greet(p, decoder, h, around).0
    case ConfirmCall(tagText) => Finish(p, decoder, tagText).0
  }

  function Ran(p: Progress, decoder: Decoder, calls: seq<Call>): Progress {
    if calls == [] then p else Called(Ran(p, decoder, calls[..|calls| - 1]), decoder, calls[|calls| - 1])
  }

  /** Once a Hello is accepted its key, its account and its app key stay, whatever is called
      afterwards, and nothing un-finishes a finished handshake. */
  lemma {:induction false} AcceptedHelloIsFinal(p: Progress, decoder: Decoder, calls: seq<Call>)
    requires p.helloDone
    ensures Ran(p, decoder, calls) == p.(done := Ran(p, decoder, calls).done)
    ensures p.done ==> Ran(p, decoder, calls).done
  {
    if calls != [] {
      AcceptedHelloIsFinal(p, decoder, calls[..|calls| - 1]);
    }
  }

  // ----- the responder -----

  class Responder {
    const identity: nat
    const decoder: Decoder
    var eph: Option<nat>
    var transcriptHash: Bytes
    var sessionKey: Bytes
    var sas: Bytes
    var appIdPub: string
    var account: string
    var device: string
    var helloDone: bool
    var done: bool

    function State(): Progress
      reads this
    {
      Progress(identity, eph, transcriptHash, sessionKey, sas, appIdPub, account, device, helloDone, done)
    }

    constructor (identity: nat, decoder: Decoder)
      ensures State() == NewProgress(identity) && this.decoder == decoder
    {
      this.identity := identity;
      this.decoder := decoder;
      eph, transcriptHash, sessionKey, sas := None, [], [], [];
      appIdPub, account, device := "", "", "";
      helloDone, done := false, false;
    }

    method Hello(h: Hello, around: Surroundings) returns (r: Result<Ack, HandshakeError>)
      modifies this
      ensures (State(), r) == Greet(old(State()), decoder, h, around)
    {
      if helloDone {
        return Err(HelloAlreadyProcessed);
      }
      var appId := DecodePoint(decoder, h.appIdPub);
      if appId.None? {
        return Err(BadAppIdPub);
      }
      var appEph := DecodePoint(decoder, h.appEphPub);
      if appEph.None? {
        return Err(BadAppEphPub);
      }
      var appNonce := DecodeBase64(decoder, h.appNonce);
      if appNonce.None? {
        return Err(BadNonceText);
      }
      if Width(appNonce.value) != NONCE_LEN {
        return Err(BadNonceLength);
      }
      if h.assertion == "" {
        return Err(MissingAssertion);
      }
      if around.verified.None? {
        return Err(AssertionRejected);
      }
      var assertion := around.verified.value;
      if assertion.appIdPub != h.appIdPub {
        return Err(AssertionForAnotherKey);
      }
      if around.ephemeral.None? {
        return Err(NoRandomness);
      }
      eph := around.ephemeral;
      if !GoodNonce(around.nonce) {
        return Err(NoRandomness);
      }
      var nonce := around.nonce.value;
      var th := HashTranscript(Transcript(
        PublicKey(appId.value), PublicKey(identity), PublicKey(appEph.value), PublicKey(eph.value),
        appNonce.value, nonce, [Sha(Ascii(h.assertion))]));
      var key := MixSessionKey(Ecdh(eph.value, appEph.value), Ecdh(identity, appId.value), th);
      transcriptHash, sessionKey, sas := th, key, Sas(key);
      appIdPub, account, device := assertion.appIdPub, assertion.account, assertion.device;
      helloDone := true;
      r := Ok(Ack(PublicKey(identity), PublicKey(eph.value), nonce, NodeConfirm(key, th)));
    }

    method Confirm(tagText: string) returns (r: Result<Outcome, HandshakeError>)
      modifies this`done
      ensures (State(), r) == Finish(old(State()), decoder, tagText)
    {
      if !helloDone {
        return Err(ConfirmBeforeHello);
      }
      if done {
        return Err(ConfirmAlreadyProcessed);
      }
      var got := DecodeBase64(decoder, tagText);
      if got.None? {
        return Err(BadConfirmText);
      }
      if got.value != AppConfirm(sessionKey, transcriptHash) {
        return Err(BadConfirmTag);
      }
      done := true;
      r := Ok(Outcome(sessionKey, sas, appIdPub, account, device));
    }
  }
}
