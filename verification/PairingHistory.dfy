/** Where a session key comes from, over the whole run: the one Hello its connection had
    accepted, and a later Confirm that passed and whose pin was accepted and written
    (internal/lanserve/pairing.go). */
module PairingHistory {
  import opened Wrappers
  import opened Crypto
  import opened Handshake
  import opened Pins
  import opened LanSession
  import opened PairingMachine

  function ResponderOf(node: Node, x: Session): Progress {
    if x.responder.Some? then x.responder.value else NewProgress(node.identity)
  }

  // ----- what an event does in the state it meets -----

  /** This event is a Hello that connection c accepts. */
  predicate AcceptsNow(node: Node, s: State, e: Event, c: nat) {
    && e.Greeting? && e.c == c && e.hello.Some? && At(s, c, true)
    && Greet(ResponderOf(node, s.conns[c].session), node.decoder, e.hello.value, e.around).1.Ok?
  }

  function GreetedNow(node: Node, s: State, e: Event, c: nat): Progress
    requires AcceptsNow(node, s, e, c)
  {
    Greet(ResponderOf(node, s.conns[c].session), node.decoder, e.hello.value, e.around).0
  }

  /** What a session is bound to. */
  datatype Binding = Binding(key: Bytes, account: string, appKey: string)

  /** This event is a Confirm whose tag is right, whose pin is not refused, and whose first
      contact is written. */
  predicate BindsNow(node: Node, s: State, e: Event, c: nat, b: Binding) {
    && e.Confirming? && e.c == c && At(s, c, true) && s.conns[c].session.responder.Some?
    && var outcome := FinishedOutcome(s.conns[c].session, node.decoder, e.tagText);
    && outcome.Ok? && BindingOf(outcome.value) == b
    && Classify(s.pins, b.account, b.appKey) != SafetyNumberChanged
    && (Classify(s.pins, b.account, b.appKey) == FirstContact ==> e.writes)
  }

  function BindingOf(o: Outcome): Binding {
    Binding(o.sessionKey, o.account, o.appIdPub)
  }

  predicate BoundTo(x: Session, b: Binding) {
    x.key == Some(b.key) && x.account == b.account && x.appKey == b.appKey
  }

  predicate HelloDone(x: Session) {
    x.responder.Some? && x.responder.value.helloDone
  }

  // ----- the same, at a place of a run -----

  predicate AcceptsAt(node: Node, disk: Devices, events: seq<Event>, j: nat, c: nat) {
    j < |events| && AcceptsNow(node, Play(node, Fresh(disk), events[..j]), events[j], c)
  }

  predicate BindsAt(node: Node, disk: Devices, events: seq<Event>, i: nat, c: nat, b: Binding) {
    i < |events| && BindsNow(node, Play(node, Fresh(disk), events[..i]), events[i], c, b)
  }

  ghost predicate OnlyHello(node: Node, disk: Devices, events: seq<Event>, j: nat, c: nat) {
    AcceptsAt(node, disk, events, j, c) && NoOtherHello(node, disk, events, j, c)
  }

  ghost predicate NoOtherHello(node: Node, disk: Devices, events: seq<Event>, j: nat, c: nat) {
    forall k :: AcceptsAt(node, disk, events, k, c) ==> k == j
  }

  ghost predicate HelloIs(node: Node, disk: Devices, events: seq<Event>, j: nat, c: nat, p: Progress) {
    && OnlyHello(node, disk, events, j, c)
    && p == GreetedNow(node, Play(node, Fresh(disk), events[..j]), events[j], c).(done := p.done)
  }

  ghost predicate HelloTraced(node: Node, disk: Devices, events: seq<Event>, c: nat) {
    var s := Play(node, Fresh(disk), events);
    && (c in s.conns && HelloDone(s.conns[c].session) ==>
          exists j :: HelloIs(node, disk, events, j, c, s.conns[c].session.responder.value))
    && (c !in s.used || (c in s.conns && !HelloDone(s.conns[c].session)) ==> NoHello(node, disk, events, c))
  }

  ghost predicate NoHello(node: Node, disk: Devices, events: seq<Event>, c: nat) {
    forall j :: !AcceptsAt(node, disk, events, j, c)
  }

  ghost predicate BindingTraced(node: Node, disk: Devices, events: seq<Event>, c: nat) {
    var s := Play(node, Fresh(disk), events);
    c in s.conns ==>
      && (s.conns[c].phase.Activating? ==> exists i :: BindsAt(node, disk, events, i, c, BindingOf(s.conns[c].phase.outcome)))
      && (s.conns[c].session.key.Some? ==> exists i, b :: BindsAt(node, disk, events, i, c, b) && BoundTo(s.conns[c].session, b))
  }

  lemma {:induction false} Earlier(node: Node, disk: Devices, events: seq<Event>, n: nat, j: nat, c: nat)
    requires j < n <= |events|
    ensures forall b :: BindsAt(node, disk, events, j, c, b) <==> BindsAt(node, disk, events[..n], j, c, b)
  {
    assert events[..n][..j] == events[..j];
  }

  lemma {:induction false} EarlierHello(node: Node, disk: Devices, events: seq<Event>, n: nat, j: nat, c: nat)
    requires j < n <= |events|
    ensures AcceptsAt(node, disk, events, j, c) <==> AcceptsAt(node, disk, events[..n], j, c)
  {
    assert events[..n][..j] == events[..j];
  }

  lemma {:induction false} NoneEarlier(node: Node, disk: Devices, events: seq<Event>, c: nat)
    requires events != [] && NoHello(node, disk, events[..|events| - 1], c)
    ensures forall j :: AcceptsAt(node, disk, events, j, c) ==> j == |events| - 1
  {
    forall j: nat | AcceptsAt(node, disk, events, j, c)
      ensures j == |events| - 1
    {
      if j < |events| - 1 {
        EarlierHello(node, disk, events, |events| - 1, j, c);
      }
    }
  }

  // ----- what one step does to a connection -----

  predicate SameBinding(x: Session, y: Session) {
    x.key == y.key && x.account == y.account && x.appKey == y.appKey
  }

  /** Neither the handshake nor the binding of a connection moves. */
  predicate Quiet(x: Conn, y: Conn) {
    && x.session.responder == y.session.responder && SameBinding(x.session, y.session)
    && (y.phase.Activating? ==> y.phase == x.phase)
  }

  predicate Greets(s: State, e: Event, c: nat) {
    e.Greeting? && e.c == c && e.hello.Some? && At(s, c, true)
  }

  predicate Confirms(s: State, e: Event, c: nat) {
    e.Confirming? && e.c == c && At(s, c, true)
  }

  predicate ActivatesNow(s: State, e: Event, c: nat) {
    e.Activates? && e.c == c && c in s.conns && s.conns[c].phase.Activating?
  }

  /** Every other connection is as it was, or gone. */
  predicate OnlyTouches(s: State, s': State, c: nat) {
    forall d :: d in s'.conns && d != c ==> d in s.conns && s'.conns[d] == s.conns[d]
  }

  lemma PutTouches(s: State, t: State, c: nat, session: Session, phase: Phase)
    requires c in s.conns && t.conns == s.conns
    ensures c in Put(t, c, session, phase).conns && Put(t, c, session, phase).conns[c] == Conn(session, phase)
    ensures OnlyTouches(s, Put(t, c, session, phase), c)
  {
  }

  lemma InferQuiet(s: State, t: State, c: nat, x: Session, y: Session, turn: Option<Turn>)
    requires c in s.conns && t.conns == s.conns && s.conns[c].session == x
    requires x.responder == y.responder && SameBinding(x, y)
    ensures c in Infer(t, c, y, turn).conns && Quiet(s.conns[c], Infer(t, c, y, turn).conns[c]) && OnlyTouches(s, Infer(t, c, y, turn), c)
  {
    PutTouches(s, t, c, y, Idle);
    if turn.Some? {
      var t' := t.(runs := t.runs + [Inference(y.started, y.account, y.appKey)]);
      PutTouches(s, t', c, StartedTurn(y, turn.value), Idle);
    }
  }

  lemma GateQuiet(s: State, t: State, c: nat, turn: Option<Turn>)
    requires c in s.conns && t.conns == s.conns
    ensures
      var session := s.conns[c].session;
      var t' := if session.started && !session.verified then Put(t, c, session, Marking(turn)) else Infer(t, c, session, turn);
      c in t'.conns && Quiet(s.conns[c], t'.conns[c]) && OnlyTouches(s, t', c)
  {
    var session := s.conns[c].session;
    InferQuiet(s, t, c, session, session, turn);
    PutTouches(s, t, c, session, Marking(turn));
  }

  predicate PastGate(s: State, c: nat, content: Content, fileKey: Option<Bytes>) {
    && At(s, c, true) && Opens(s.conns[c].session, fileKey, content)
    && content.inner.UserMessage? && MayInfer(s.conns[c].session, s.pins)
  }

  lemma HeldQuiet(s: State, c: nat, content: Content, userId: string, fileKey: Option<Bytes>)
    requires At(s, c, true) && !PastGate(s, c, content, fileKey)
    ensures
      var s' := Receive(s, c, content, userId, fileKey);
      c in s'.conns && Quiet(s.conns[c], s'.conns[c]) && OnlyTouches(s, s', c)
  {
    var session := s.conns[c].session;
    if Opens(session, fileKey, content) && content.inner.Stop? {
      var t := s.(openings := s.openings + [OpenedFrame(c, SelectKey(session, fileKey).fromFile)]);
      PutTouches(s, t, c, Interrupted(session), Idle);
    } else {
      assert Receive(s, c, content, userId, fileKey).conns == s.conns;
    }
  }

  lemma MessageQuiet(s: State, c: nat, content: Content, userId: string, fileKey: Option<Bytes>)
    requires At(s, c, true)
    ensures
      var s' := Receive(s, c, content, userId, fileKey);
      c in s'.conns && Quiet(s.conns[c], s'.conns[c]) && OnlyTouches(s, s', c)
  {
    if PastGate(s, c, content, fileKey) {
      var session := s.conns[c].session;
      var prompt, fromFile := content.inner.prompt, SelectKey(session, fileKey).fromFile;
      var turn := if prompt.None? then None else Some(Turn(content.key, fromFile, userId, prompt.value));
      GateQuiet(s, s.(openings := s.openings + [OpenedFrame(c, fromFile)]), c, turn);
    } else {
      HeldQuiet(s, c, content, userId, fileKey);
    }
  }

  /** Where a Confirm that passed leaves the handler. */
  function ConfirmedPhase(s: State, e: Event, o: Outcome): Phase
    requires e.Confirming?
  {
    var seen := Classify(s.pins, o.account, o.appIdPub);
    if seen == SafetyNumberChanged || (seen == FirstContact && !e.writes) then Idle else Activating(o, seen)
  }

  lemma ConfirmIsPut(node: Node, s: State, e: Event, c: nat) returns (t: State)
    requires Confirms(s, e, c) && s.conns[c].session.responder.Some?
    ensures t.conns == s.conns
    ensures
      var x := s.conns[c].session;
      var outcome := FinishedOutcome(x, node.decoder, e.tagText);
      Confirm(node, s, c, e.tagText, e.now, e.writes) ==
        Put(t, c, Finished(x, node.decoder, e.tagText), if outcome.Err? then Idle else ConfirmedPhase(s, e, outcome.value))
  {
    var outcome := FinishedOutcome(s.conns[c].session, node.decoder, e.tagText);
    t := s;
    if outcome.Ok? && Classify(s.pins, outcome.value.account, outcome.value.appIdPub) == FirstContact {
      t := Saved(s, Observed(s.pins, outcome.value.account, outcome.value.appIdPub, e.now), e.writes);
    }
  }

  lemma ConfirmStep(node: Node, s: State, e: Event, c: nat)
    requires Confirms(s, e, c)
    ensures
      var x, s' := s.conns[c].session, Confirm(node, s, c, e.tagText, e.now, e.writes);
      && c in s'.conns && OnlyTouches(s, s', c)
      && s'.conns[c].session == (if x.responder.None? then x else Finished(x, node.decoder, e.tagText))
      && (s'.conns[c].phase.Activating? ==> BindsNow(node, s, e, c, BindingOf(s'.conns[c].phase.outcome)))
  {
    var x := s.conns[c].session;
    if x.responder.Some? {
      var t := ConfirmIsPut(node, s, e, c);
      var outcome := FinishedOutcome(x, node.decoder, e.tagText);
      PutTouches(s, t, c, Finished(x, node.decoder, e.tagText), if outcome.Err? then Idle else ConfirmedPhase(s, e, outcome.value));
    }
  }

  /** Everything but these three events leaves a connection's handshake and binding alone. */
  lemma QuietStep(node: Node, s: State, e: Event, c: nat)
    requires c in s.conns && c in Step(node, s, e).conns && c in s.used
    requires !Greets(s, e, c) && !Confirms(s, e, c) && !ActivatesNow(s, e, c)
    ensures Quiet(s.conns[c], Step(node, s, e).conns[c])
  {
    match e
    case Message(d, content, userId, fileKey) =>
      if At(s, d, true) {
        MessageQuiet(s, d, content, userId, fileKey);
      }
    case Confirming(d, tagText, now, writes) =>
      if At(s, d, true) {
        ConfirmStep(node, s, e, d);
      }
    case _ =>
      OtherQuiet(node, s, e, c);
  }

  lemma OtherQuiet(node: Node, s: State, e: Event, c: nat)
    requires c in s.conns && c in Step(node, s, e).conns && c in s.used && !e.Message? && !e.Confirming?
    requires !Greets(s, e, c) && !ActivatesNow(s, e, c)
    ensures Quiet(s.conns[c], Step(node, s, e).conns[c])
  {
    if e.Marks? {
      MarksQuiet(node, s, e.c, c);
    } else if e.Records? || e.Greeting? || e.Activates? {
      HandlerQuiet(node, s, e, c);
    } else {
      assert Step(node, s, e).conns[c] == s.conns[c];
    }
  }

  lemma MarksQuiet(node: Node, s: State, d: nat, c: nat)
    requires c in s.conns && c in Step(node, s, Marks(d)).conns
    ensures Quiet(s.conns[c], Step(node, s, Marks(d)).conns[c])
  {
    if d in s.conns && s.conns[d].phase.Marking? {
      var x := s.conns[d].session;
      InferQuiet(s, s, d, x, x.(verified := true), s.conns[d].phase.turn);
    }
  }

  lemma HandlerQuiet(node: Node, s: State, e: Event, c: nat)
    requires c in s.conns && c in Step(node, s, e).conns && (e.Records? || e.Greeting? || e.Activates?)
    requires !Greets(s, e, c) && !ActivatesNow(s, e, c)
    ensures Quiet(s.conns[c], Step(node, s, e).conns[c])
  {
  }

  /** A session keeps its Hello, or gets it now; it has none only if it had none. */
  ghost predicate HelloStep(node: Node, s: State, e: Event, x: Session, y: Session, c: nat) {
    && (HelloDone(x) ==> HelloDone(y) && !AcceptsNow(node, s, e, c))
    && (HelloDone(x) && HelloDone(y) ==> y.responder.value == x.responder.value.(done := y.responder.value.done))
    && (!HelloDone(x) ==> (HelloDone(y) <==> AcceptsNow(node, s, e, c)))
    && (!HelloDone(x) && AcceptsNow(node, s, e, c) && HelloDone(y) ==> y.responder.value == GreetedNow(node, s, e, c))
  }

  lemma StepHello(node: Node, s: State, e: Event, c: nat)
    requires c in s.conns && c in Step(node, s, e).conns && c in s.used
    ensures HelloStep(node, s, e, s.conns[c].session, Step(node, s, e).conns[c].session, c)
  {
    if Greets(s, e, c) {
      GreetingHello(node, s, e, c);
    } else if Confirms(s, e, c) {
      ConfirmStep(node, s, e, c);
    } else if !ActivatesNow(s, e, c) {
      QuietStep(node, s, e, c);
    }
  }

  lemma GreetingHello(node: Node, s: State, e: Event, c: nat)
    requires Greets(s, e, c)
    ensures HelloStep(node, s, e, s.conns[c].session,
      Greeted(s.conns[c].session, node.identity, node.decoder, e.hello.value, e.around), c)
  {
  }

  /** A binding waits in a handler only after a Confirm that made it, and a session takes it
      only from there. */
  ghost predicate BindingStep(node: Node, s: State, e: Event, x: Conn, y: Conn, c: nat) {
    && (y.phase.Activating? ==> BindsNow(node, s, e, c, BindingOf(y.phase.outcome)) || y.phase == x.phase)
    && (SameBinding(x.session, y.session) || (x.phase.Activating? && BoundTo(y.session, BindingOf(x.phase.outcome))))
  }

  lemma StepBinding(node: Node, s: State, e: Event, c: nat)
    requires c in s.conns && c in Step(node, s, e).conns && c in s.used
    ensures BindingStep(node, s, e, s.conns[c], Step(node, s, e).conns[c], c)
  {
    if Confirms(s, e, c) {
      ConfirmStep(node, s, e, c);
    } else if !Greets(s, e, c) && !ActivatesNow(s, e, c) {
      QuietStep(node, s, e, c);
    }
  }

  lemma NewConnection(node: Node, s: State, e: Event, c: nat)
    requires c !in s.conns && s.conns.Keys <= s.used
    ensures !AcceptsNow(node, s, e, c)
    ensures c in Step(node, s, e).conns ==> c !in s.used && Step(node, s, e).conns[c] == Conn(NEW_SESSION, Idle)
  {
    if e.Message? {
      if At(s, e.c, true) {
        MessageQuiet(s, e.c, e.content, e.userId, e.fileKey);
      }
    } else if e.Confirming? {
      if At(s, e.c, true) {
        ConfirmStep(node, s, e, e.c);
      }
    } else {
      OnlyConnectAdds(node, s, e, c);
    }
  }

  lemma OnlyConnectAdds(node: Node, s: State, e: Event, c: nat)
    requires c !in s.conns && s.conns.Keys <= s.used && !e.Message? && !e.Confirming?
    ensures c in Step(node, s, e).conns ==> c !in s.used && Step(node, s, e).conns[c] == Conn(NEW_SESSION, Idle)
  {
  }

  // ----- over the run -----

  lemma UsedStays(node: Node, s: State, e: Event, c: nat)
    requires c in s.used
    ensures c in Step(node, s, e).used
  {
    if e.Message? {
      if At(s, e.c, true) {
        assert Receive(s, e.c, e.content, e.userId, e.fileKey).used == s.used;
      }
    } else if e.Confirming? {
      if At(s, e.c, true) {
        assert Confirm(node, s, e.c, e.tagText, e.now, e.writes).used == s.used;
      }
    }
  }

  lemma {:induction false} HelloIsTraced(node: Node, disk: Devices, events: seq<Event>, c: nat)
    requires Sound(disk)
    ensures HelloTraced(node, disk, events, c)
  {
    if events != [] {
      var n := |events| - 1;
      var s := Play(node, Fresh(disk), events[..n]);
      HelloIsTraced(node, disk, events[..n], c);
      PlayKeeps(node, Fresh(disk), events[..n]);
      TraceHello(node, disk, events, c, s, Step(node, s, events[n]));
    }
  }

  lemma {:induction false} TraceHello(node: Node, disk: Devices, events: seq<Event>, c: nat, s: State, s': State)
    requires events != [] && HelloTraced(node, disk, events[..|events| - 1], c)
    requires s == Play(node, Fresh(disk), events[..|events| - 1]) && s.conns.Keys <= s.used
    requires s' == Step(node, s, events[|events| - 1]) == Play(node, Fresh(disk), events)
    ensures HelloTraced(node, disk, events, c)
  {
    var n := |events| - 1;
    var e := events[n];
    assert AcceptsAt(node, disk, events, n, c) <==> AcceptsNow(node, s, e, c);
    if c in s.used {
      UsedStays(node, s, e, c);
    }
    if c !in s.conns {
      NewConnection(node, s, e, c);
      if c !in s.used {
        NoneEarlier(node, disk, events, c);
      }
    } else if c in s'.conns {
      StepHello(node, s, e, c);
      if HelloDone(s.conns[c].session) {
        var p := s.conns[c].session.responder.value;
        var j :| HelloIs(node, disk, events[..n], j, c, p);
        HelloIsKept(node, disk, events, j, c, p, s'.conns[c].session.responder.value);
      } else {
        NoneEarlier(node, disk, events, c);
        if HelloDone(s'.conns[c].session) {
          assert HelloIs(node, disk, events, n, c, s'.conns[c].session.responder.value);
        }
      }
    }
  }

  lemma {:induction false} NoOtherHelloKept(node: Node, disk: Devices, events: seq<Event>, j: nat, c: nat)
    requires events != [] && NoOtherHello(node, disk, events[..|events| - 1], j, c)
    requires !AcceptsAt(node, disk, events, |events| - 1, c)
    ensures NoOtherHello(node, disk, events, j, c)
  {
    forall k: nat | AcceptsAt(node, disk, events, k, c)
      ensures k == j
    {
      EarlierHello(node, disk, events, |events| - 1, k, c);
    }
  }

  lemma {:induction false} OnlyHelloKept(node: Node, disk: Devices, events: seq<Event>, j: nat, c: nat)
    requires events != [] && OnlyHello(node, disk, events[..|events| - 1], j, c)
    requires !AcceptsAt(node, disk, events, |events| - 1, c)
    ensures OnlyHello(node, disk, events, j, c)
  {
    EarlierHello(node, disk, events, |events| - 1, j, c);
    NoOtherHelloKept(node, disk, events, j, c);
  }

  lemma {:induction false} HelloIsKept(node: Node, disk: Devices, events: seq<Event>, j: nat, c: nat, p: Progress, q: Progress)
    requires events != [] && HelloIs(node, disk, events[..|events| - 1], j, c, p) && q == p.(done := q.done)
    requires !AcceptsAt(node, disk, events, |events| - 1, c)
    ensures HelloIs(node, disk, events, j, c, q)
  {
    OnlyHelloKept(node, disk, events, j, c);
    assert events[..|events| - 1][..j] == events[..j];
  }

  lemma {:induction false} BindingIsTraced(node: Node, disk: Devices, events: seq<Event>, c: nat)
    requires Sound(disk)
    ensures BindingTraced(node, disk, events, c)
  {
    if events != [] {
      var n := |events| - 1;
      var s := Play(node, Fresh(disk), events[..n]);
      BindingIsTraced(node, disk, events[..n], c);
      PlayKeeps(node, Fresh(disk), events[..n]);
      TraceBinding(node, disk, events, c, s, Step(node, s, events[n]));
    }
  }

  lemma {:induction false} TraceBinding(node: Node, disk: Devices, events: seq<Event>, c: nat, s: State, s': State)
    requires events != [] && BindingTraced(node, disk, events[..|events| - 1], c)
    requires s == Play(node, Fresh(disk), events[..|events| - 1]) && s.conns.Keys <= s.used
    requires s' == Step(node, s, events[|events| - 1]) == Play(node, Fresh(disk), events)
    ensures BindingTraced(node, disk, events, c)
  {
    var n := |events| - 1;
    var pre, e := events[..n], events[n];
    if c !in s.conns {
      NewConnection(node, s, e, c);
    } else if c in s'.conns {
      StepBinding(node, s, e, c);
      var x, y := s.conns[c], s'.conns[c];
      if y.phase.Activating? {
        var b := BindingOf(y.phase.outcome);
        if BindsNow(node, s, e, c, b) {
          assert BindsAt(node, disk, events, n, c, b);
        } else {
          var i :| BindsAt(node, disk, pre, i, c, b);
          Earlier(node, disk, events, n, i, c);
          assert BindsAt(node, disk, events, i, c, b);
        }
      }
      if y.session.key.Some? {
        if SameBinding(x.session, y.session) {
          var i, b :| BindsAt(node, disk, pre, i, c, b) && BoundTo(x.session, b);
          Earlier(node, disk, events, n, i, c);
          assert BindsAt(node, disk, events, i, c, b) && BoundTo(y.session, b);
        } else {
          var b := BindingOf(x.phase.outcome);
          var i :| BindsAt(node, disk, pre, i, c, b);
          Earlier(node, disk, events, n, i, c);
          assert BindsAt(node, disk, events, i, c, b) && BoundTo(y.session, b);
        }
      }
    }
  }

  /** The Hello at j and the Confirm at i that a session's key comes from. */
  ghost predicate KeyComesFrom(node: Node, disk: Devices, events: seq<Event>, j: nat, i: nat, c: nat, x: Session) {
    && j < i && OnlyHello(node, disk, events, j, c)
    && var p := GreetedNow(node, Play(node, Fresh(disk), events[..j]), events[j], c);
    && var b := Binding(p.sessionKey, p.account, p.appIdPub);
    && BindsAt(node, disk, events, i, c, b) && BoundTo(x, b)
  }

  /** Over every run: a session that holds a key got it, with its account and app key, from the
      only Hello its connection ever accepted, by a later Confirm whose tag was right and whose
      pin was not refused and, on first contact, was written. */
  lemma {:induction false} SessionKeyWasConfirmed(node: Node, disk: Devices, events: seq<Event>, c: nat)
    requires Sound(disk)
    ensures
      var s := Play(node, Fresh(disk), events);
      c in s.conns && s.conns[c].session.key.Some? ==>
        exists j, i :: KeyComesFrom(node, disk, events, j, i, c, s.conns[c].session)
  {
    var s := Play(node, Fresh(disk), events);
    if c in s.conns && s.conns[c].session.key.Some? {
      var x := s.conns[c].session;
      PlayKeeps(node, Fresh(disk), events);
      assert ConnOk(node, s.conns[c], s.pins);
      HelloIsTraced(node, disk, events, c);
      BindingIsTraced(node, disk, events, c);
      var j :| HelloIs(node, disk, events, j, c, x.responder.value);
      var i, b :| BindsAt(node, disk, events, i, c, b) && BoundTo(x, b);
      HelloBeforeConfirm(node, disk, events, j, i, c, b);
      assert KeyComesFrom(node, disk, events, j, i, c, x);
    }
  }

  lemma {:induction false} HelloBeforeConfirm(node: Node, disk: Devices, events: seq<Event>, j: nat, i: nat, c: nat, b: Binding)
    requires Sound(disk) && OnlyHello(node, disk, events, j, c) && BindsAt(node, disk, events, i, c, b)
    ensures j < i
  {
    HelloIsTraced(node, disk, events[..i], c);
    var before := Play(node, Fresh(disk), events[..i]);
    var k :| HelloIs(node, disk, events[..i], k, c, before.conns[c].session.responder.value);
    EarlierHello(node, disk, events, i, k, c);
  }
}
