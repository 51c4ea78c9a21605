/** Which key every frame of a connection is sealed under, over the whole run: the one its message
    was opened with.  A turn is a goroutine that keeps that key (internal/lanserve/router.go), so it
    goes on with it whatever handshake happens on the connection meanwhile. */
module SealingKeys {
  import opened Wrappers
  import opened Crypto
  import opened Handshake
  import opened Pins
  import opened LanSession
  import opened PairingMachine
  import opened PairingHistory

  // ----- places of a run -----

  function Before(node: Node, disk: Devices, events: seq<Event>, i: nat): State
    requires i <= |events|
  {
    Play(node, Fresh(disk), events[..i])
  }

  /** A Hello that reaches the responder of a connection that had none: it is latched from here. */
  predicate LatchesNow(s: State, e: Event, c: nat) {
    e.Greeting? && e.c == c && e.hello.Some? && At(s, c, true) && !s.conns[c].session.started
  }

  /** An envelope that opens, on a connection waiting for a frame. */
  predicate OpensNow(s: State, e: Event, c: nat) {
    e.Message? && e.c == c && At(s, c, true) && Opens(s.conns[c].session, e.fileKey, e.content)
  }

  /** Its user message starts the turn with this number. */
  predicate ReceivesNow(s: State, e: Event, c: nat, turn: nat) {
    && OpensNow(s, e, c) && e.content.inner.UserMessage? && e.content.inner.prompt.Some?
    && MayInfer(s.conns[c].session, s.pins) && |s.conns[c].session.turns| == turn
  }

  /** The turn that this message asks for. */
  function TurnOf(s: State, e: Event): Turn
    requires e.Message? && OpensNow(s, e, e.c) && e.content.inner.UserMessage? && e.content.inner.prompt.Some?
  {
    Turn(e.content.key, SelectKey(s.conns[e.c].session, e.fileKey).fromFile, e.userId, e.content.inner.prompt.value)
  }

  predicate LatchesAt(node: Node, disk: Devices, events: seq<Event>, j: nat, c: nat) {
    j < |events| && LatchesNow(Before(node, disk, events, j), events[j], c)
  }

  predicate OpensAt(node: Node, disk: Devices, events: seq<Event>, i: nat, c: nat) {
    i < |events| && OpensNow(Before(node, disk, events, i), events[i], c)
  }

  predicate ReceivesAt(node: Node, disk: Devices, events: seq<Event>, i: nat, c: nat, turn: nat) {
    i < |events| && ReceivesNow(Before(node, disk, events, i), events[i], c, turn)
  }

  lemma {:induction false} SamePlace(node: Node, disk: Devices, events: seq<Event>, n: nat, i: nat, c: nat)
    requires i < n <= |events|
    ensures Before(node, disk, events[..n], i) == Before(node, disk, events, i) && events[..n][i] == events[i]
    ensures LatchesAt(node, disk, events[..n], i, c) <==> LatchesAt(node, disk, events, i, c)
    ensures OpensAt(node, disk, events[..n], i, c) <==> OpensAt(node, disk, events, i, c)
    ensures forall turn :: ReceivesAt(node, disk, events[..n], i, c, turn) <==> ReceivesAt(node, disk, events, i, c, turn)
  {
    assert events[..n][..i] == events[..i];
  }

  // ----- one step -----

  /** The turn that a connection has been asked for and not yet started. */
  function Asked(x: Conn): seq<Turn> {
    if x.phase.Marking? && x.phase.turn.Some? then [x.phase.turn.value] else []
  }

  /** All its turns, the asked one included. */
  function AllTurns(x: Conn): seq<Turn> {
    x.session.turns + Asked(x)
  }

  /** Turns are only added, by a message that asks for one; only a first Hello latches. */
  ghost predicate TurnStep(s: State, e: Event, x: Conn, y: Conn, c: nat) {
    && (forall k :: ReceivesNow(s, e, c, k) ==> k == |AllTurns(x)|)
    && AllTurns(y) == AllTurns(x) + (if ReceivesNow(s, e, c, |AllTurns(x)|) then [TurnOf(s, e)] else [])
    && (y.session.started <==> x.session.started || LatchesNow(s, e, c))
  }

  /** An event that is no message of this connection adds no turn to it. */
  lemma SameTurns(s: State, e: Event, x: Conn, y: Conn, c: nat)
    requires e.Message? ==> e.c != c
    requires AllTurns(y) == AllTurns(x) && (y.session.started <==> x.session.started || LatchesNow(s, e, c))
    ensures TurnStep(s, e, x, y, c)
  {
  }

  /** The turns of both are the same one by one, started and asked for. */
  predicate SameAsked(x: Conn, y: Conn) {
    y.session.turns == x.session.turns && Asked(y) == Asked(x) && y.session.started == x.session.started
  }

  /** A message that asks for no turn. */
  lemma NoTurn(s: State, e: Event, c: nat)
    requires e.Message? && e.c == c && At(s, c, true) && !ReceivesNow(s, e, c, |s.conns[c].session.turns|)
    ensures
      var s' := Receive(s, c, e.content, e.userId, e.fileKey);
      c in s'.conns && SameAsked(s.conns[c], s'.conns[c])
  {
    var x := s.conns[c].session;
    var s' := Receive(s, c, e.content, e.userId, e.fileKey);
    if OpensNow(s, e, c) && e.content.inner.UserMessage? && MayInfer(x, s.pins) {
      assert s'.conns[c] == Conn(x, if x.started && !x.verified then Marking(None) else Idle);
    } else {
      RefusedTurn(s, e, c);
    }
  }

  lemma RefusedTurn(s: State, e: Event, c: nat)
    requires e.Message? && e.c == c && At(s, c, true)
    requires !(OpensNow(s, e, c) && e.content.inner.UserMessage? && MayInfer(s.conns[c].session, s.pins))
    ensures
      var s' := Receive(s, c, e.content, e.userId, e.fileKey);
      c in s'.conns && SameAsked(s.conns[c], s'.conns[c])
  {
    var x := s.conns[c].session;
    var s' := Receive(s, c, e.content, e.userId, e.fileKey);
    assert s'.conns[c] == Conn(if OpensNow(s, e, c) && e.content.inner.Stop? then Interrupted(x) else x, Idle);
  }

  /** A message that does: the turn is started, or waits for the session to be marked. */
  lemma NewTurn(s: State, e: Event, c: nat)
    requires e.Message? && e.c == c && At(s, c, true) && ReceivesNow(s, e, c, |s.conns[c].session.turns|)
    ensures
      var s' := Receive(s, c, e.content, e.userId, e.fileKey);
      && c in s'.conns && AllTurns(s'.conns[c]) == AllTurns(s.conns[c]) + [TurnOf(s, e)]
      && (s'.conns[c].session.started <==> s.conns[c].session.started)
  {
    var x, turn := s.conns[c].session, TurnOf(s, e);
    var s' := Receive(s, c, e.content, e.userId, e.fileKey);
    assert s'.conns[c] == if x.started && !x.verified then Conn(x, Marking(Some(turn))) else Conn(StartedTurn(x, turn), Idle);
  }

  lemma MessageTurns(s: State, e: Event, c: nat)
    requires e.Message? && e.c == c && At(s, c, true)
    ensures
      var s' := Receive(s, c, e.content, e.userId, e.fileKey);
      c in s'.conns && TurnStep(s, e, s.conns[c], s'.conns[c], c)
  {
    assert AllTurns(s.conns[c]) == s.conns[c].session.turns;
    if ReceivesNow(s, e, c, |s.conns[c].session.turns|) {
      NewTurn(s, e, c);
    } else {
      NoTurn(s, e, c);
    }
  }

  lemma MarkTurns(node: Node, s: State, c: nat)
    requires c in s.conns && s.conns[c].phase.Marking?
    ensures
      var s' := Step(node, s, Marks(c));
      && c in s'.conns && AllTurns(s'.conns[c]) == AllTurns(s.conns[c])
      && (s'.conns[c].session.started <==> s.conns[c].session.started)
  {
    var x, turn := s.conns[c].session.(verified := true), s.conns[c].phase.turn;
    assert Step(node, s, Marks(c)).conns[c] == Conn(if turn.None? then x else StartedTurn(x, turn.value), Idle);
  }

  lemma ConfirmTurns(node: Node, s: State, e: Event, c: nat)
    requires Confirms(s, e, c)
    ensures
      var s' := Confirm(node, s, c, e.tagText, e.now, e.writes);
      c in s'.conns && SameAsked(s.conns[c], s'.conns[c])
  {
    if s.conns[c].session.responder.Some? {
      var t := ConfirmIsPut(node, s, e, c);
    }
  }

  lemma GreetingTurns(node: Node, s: State, e: Event, c: nat)
    requires e.Greeting? && c in s.conns
    ensures
      var s' := Step(node, s, e);
      && c in s'.conns && s'.conns[c].session.turns == s.conns[c].session.turns && Asked(s'.conns[c]) == Asked(s.conns[c])
      && (s'.conns[c].session.started <==> s.conns[c].session.started || LatchesNow(s, e, c))
  {
    if e.c == c && At(s, c, true) && e.hello.Some? {
      var x := s.conns[c].session;
      assert Step(node, s, e).conns[c] == Conn(Greeted(x, node.identity, node.decoder, e.hello.value, e.around), Idle);
    } else {
      assert Step(node, s, e).conns[c] == s.conns[c];
    }
  }

  lemma ActivatesTurns(node: Node, s: State, d: nat, c: nat)
    requires c in s.conns
    ensures
      var s' := Step(node, s, Activates(d));
      c in s'.conns && SameAsked(s.conns[c], s'.conns[c])
  {
    if d == c && s.conns[c].phase.Activating? {
      assert Step(node, s, Activates(c)) == Activate(node, s, c);
    } else {
      assert Step(node, s, Activates(d)).conns[c] == s.conns[c];
    }
  }

  lemma RecordsTurns(node: Node, s: State, d: nat, c: nat)
    requires c in s.conns
    ensures
      var s' := Step(node, s, Records(d));
      c in s'.conns && SameAsked(s.conns[c], s'.conns[c])
  {
    if d == c && s.conns[c].phase.Recording? {
      assert Step(node, s, Records(c)).conns[c] == Conn(s.conns[c].session, Idle);
    } else {
      assert Step(node, s, Records(d)).conns[c] == s.conns[c];
    }
  }

  lemma StepTurns(node: Node, s: State, e: Event, c: nat)
    requires c in s.conns && c in Step(node, s, e).conns && c in s.used
    ensures TurnStep(s, e, s.conns[c], Step(node, s, e).conns[c], c)
  {
    if e.Message? && e.c == c {
      if At(s, c, true) {
        MessageTurns(s, e, c);
      }
    } else {
      OtherTurns(node, s, e, c);
      SameTurns(s, e, s.conns[c], Step(node, s, e).conns[c], c);
    }
  }

  lemma OtherTurns(node: Node, s: State, e: Event, c: nat)
    requires c in s.conns && c in Step(node, s, e).conns && c in s.used && (e.Message? ==> e.c != c)
    ensures
      var y := Step(node, s, e).conns[c];
      AllTurns(y) == AllTurns(s.conns[c]) && (y.session.started <==> s.conns[c].session.started || LatchesNow(s, e, c))
  {
    if e.Message? {
      ForeignMessage(node, s, e, c);
    } else if e.Marks? {
      if e.c == c && s.conns[c].phase.Marking? {
        MarkTurns(node, s, c);
      } else {
        ForeignMarks(node, s, e.c, c);
      }
    } else if e.Confirming? {
      ConfirmingTurns(node, s, e, c);
    } else if e.Greeting? {
      GreetingTurns(node, s, e, c);
    } else if e.Activates? {
      ActivatesTurns(node, s, e.c, c);
    } else if e.Records? {
      RecordsTurns(node, s, e.c, c);
    } else {
      RestTurns(node, s, e, c);
    }
  }

  lemma ForeignMessage(node: Node, s: State, e: Event, c: nat)
    requires e.Message? && e.c != c && c in s.conns && c in Step(node, s, e).conns
    ensures Step(node, s, e).conns[c] == s.conns[c]
  {
    if At(s, e.c, true) {
      MessageQuiet(s, e.c, e.content, e.userId, e.fileKey);
    }
  }

  lemma ForeignMarks(node: Node, s: State, d: nat, c: nat)
    requires c in s.conns && c in Step(node, s, Marks(d)).conns && (d == c ==> !s.conns[c].phase.Marking?)
    ensures Step(node, s, Marks(d)).conns[c] == s.conns[c]
  {
  }

  lemma ConfirmingTurns(node: Node, s: State, e: Event, c: nat)
    requires e.Confirming? && c in s.conns && c in Step(node, s, e).conns
    ensures SameAsked(s.conns[c], Step(node, s, e).conns[c])
  {
    if At(s, e.c, true) {
      ConfirmStep(node, s, e, e.c);
      ConfirmTurns(node, s, e, e.c);
    }
  }

  lemma RestTurns(node: Node, s: State, e: Event, c: nat)
    requires c in s.conns && c in Step(node, s, e).conns && c in s.used
    requires e.Connect? || e.Disconnect? || e.TurnSends? || e.OperatorVerifies? || e.OperatorClears? || e.Restart?
    ensures Step(node, s, e).conns[c] == s.conns[c]
  {
  }

  // ----- over the run -----

  lemma {:induction false} Continued(node: Node, disk: Devices, events: seq<Event>, i: nat)
    requires Sound(disk) && i <= |events|
    ensures Continues(Before(node, disk, events, i), Play(node, Fresh(disk), events))
    decreases |events|
  {
    if i == |events| {
      assert events[..i] == events;
    } else {
      var n := |events| - 1;
      Continued(node, disk, events[..n], i);
      assert events[..n][..i] == events[..i];
      PlayKeeps(node, Fresh(disk), events[..n]);
      StepContinues(node, Before(node, disk, events, n), events[n]);
      ContinuesTransitive(Before(node, disk, events, i), Before(node, disk, events, n), Play(node, Fresh(disk), events));
    }
  }

  /** The message at i is the one that the turn of this number was started for. */
  predicate StartsAs(node: Node, disk: Devices, events: seq<Event>, i: nat, c: nat, number: nat, turn: Turn) {
    ReceivesAt(node, disk, events, i, c, number) && turn == TurnOf(Before(node, disk, events, i), events[i])
  }

  ghost predicate TurnTraced(node: Node, disk: Devices, events: seq<Event>, c: nat, k: nat, turn: Turn) {
    exists i: nat :: StartsAs(node, disk, events, i, c, k, turn)
  }

  ghost predicate MessageTraced(node: Node, disk: Devices, events: seq<Event>, c: nat, turns: seq<Turn>, i: nat) {
    forall k: nat :: ReceivesAt(node, disk, events, i, c, k) ==>
      k < |turns| && StartsAs(node, disk, events, i, c, k, turns[k])
  }

  /** Every turn was started for a message, and every such message has its turn. */
  ghost predicate TurnsTraced(node: Node, disk: Devices, events: seq<Event>, c: nat, turns: seq<Turn>) {
    && (forall k: nat :: k < |turns| ==> TurnTraced(node, disk, events, c, k, turns[k]))
    && (forall i: nat :: MessageTraced(node, disk, events, c, turns, i))
  }

  ghost predicate LatchTraced(node: Node, disk: Devices, events: seq<Event>, c: nat, x: Conn) {
    x.session.started <==> exists j :: LatchesAt(node, disk, events, j, c)
  }

  ghost predicate Untouched(node: Node, disk: Devices, events: seq<Event>, c: nat) {
    forall i: nat :: !OpensAt(node, disk, events, i, c) && !LatchesAt(node, disk, events, i, c)
  }

  ghost predicate Traced(node: Node, disk: Devices, events: seq<Event>, c: nat) {
    var s := Play(node, Fresh(disk), events);
    && (c !in s.used ==> Untouched(node, disk, events, c))
    && (c in s.conns ==> TurnsTraced(node, disk, events, c, AllTurns(s.conns[c])) && LatchTraced(node, disk, events, c, s.conns[c]))
  }

  lemma {:induction false} IsTraced(node: Node, disk: Devices, events: seq<Event>, c: nat)
    requires Sound(disk)
    ensures Traced(node, disk, events, c)
  {
    if events != [] {
      var n := |events| - 1;
      var s := Before(node, disk, events, n);
      IsTraced(node, disk, events[..n], c);
      PlayKeeps(node, Fresh(disk), events[..n]);
      TraceStep(node, disk, events, c, s, Step(node, s, events[n]));
    }
  }

  lemma {:induction false} TraceStep(node: Node, disk: Devices, events: seq<Event>, c: nat, s: State, s': State)
    requires events != [] && Traced(node, disk, events[..|events| - 1], c)
    requires s == Before(node, disk, events, |events| - 1) && s.conns.Keys <= s.used
    requires s' == Step(node, s, events[|events| - 1]) == Play(node, Fresh(disk), events)
    ensures Traced(node, disk, events, c)
  {
    var e := events[|events| - 1];
    if c in s.used {
      UsedStays(node, s, e, c);
      if c in s'.conns {
        if c in s.conns {
          StepTurns(node, s, e, c);
          TurnsStay(node, disk, events, c, s, s.conns[c], s'.conns[c]);
          LatchStays(node, disk, events, c, s, s.conns[c], s'.conns[c]);
        } else {
          NewConnection(node, s, e, c);
        }
      }
    } else {
      StillUntouched(node, disk, events, c, s);
      assert forall i: nat, k: nat :: ReceivesAt(node, disk, events, i, c, k) ==> OpensAt(node, disk, events, i, c);
      if c in s'.conns {
        NewConnection(node, s, e, c);
      }
    }
  }

  lemma {:induction false} StillUntouched(node: Node, disk: Devices, events: seq<Event>, c: nat, s: State)
    requires events != [] && Untouched(node, disk, events[..|events| - 1], c)
    requires s == Before(node, disk, events, |events| - 1) && c !in s.conns
    ensures Untouched(node, disk, events, c)
  {
    var n := |events| - 1;
    forall i: nat
      ensures !OpensAt(node, disk, events, i, c) && !LatchesAt(node, disk, events, i, c)
    {
      if i < n {
        SamePlace(node, disk, events, n, i, c);
      }
    }
  }

  lemma {:induction false} LatchStays(node: Node, disk: Devices, events: seq<Event>, c: nat, s: State, x: Conn, y: Conn)
    requires events != [] && LatchTraced(node, disk, events[..|events| - 1], c, x)
    requires s == Before(node, disk, events, |events| - 1)
    requires TurnStep(s, events[|events| - 1], x, y, c)
    ensures LatchTraced(node, disk, events, c, y)
  {
    var n := |events| - 1;
    if x.session.started {
      var j: nat :| LatchesAt(node, disk, events[..n], j, c);
      SamePlace(node, disk, events, n, j, c);
      assert LatchesAt(node, disk, events, j, c);
    } else if LatchesNow(s, events[n], c) {
      assert LatchesAt(node, disk, events, n, c);
    } else {
      forall j: nat
        ensures !LatchesAt(node, disk, events, j, c)
      {
        if j < n {
          SamePlace(node, disk, events, n, j, c);
        }
      }
    }
  }

  lemma {:induction false} TurnsStay(node: Node, disk: Devices, events: seq<Event>, c: nat, s: State, x: Conn, y: Conn)
    requires events != [] && TurnsTraced(node, disk, events[..|events| - 1], c, AllTurns(x))
    requires s == Before(node, disk, events, |events| - 1)
    requires TurnStep(s, events[|events| - 1], x, y, c)
    ensures TurnsTraced(node, disk, events, c, AllTurns(y))
  {
    forall k: nat | k < |AllTurns(y)|
      ensures TurnTraced(node, disk, events, c, k, AllTurns(y)[k])
    {
      TurnHasMessage(node, disk, events, c, s, x, y, k);
    }
    forall i: nat
      ensures MessageTraced(node, disk, events, c, AllTurns(y), i)
    {
      MessageHasTurn(node, disk, events, c, s, x, y, i);
    }
  }

  lemma {:induction false} TurnHasMessage(
    node: Node, disk: Devices, events: seq<Event>, c: nat, s: State, x: Conn, y: Conn, k: nat)
    requires events != [] && TurnsTraced(node, disk, events[..|events| - 1], c, AllTurns(x))
    requires s == Before(node, disk, events, |events| - 1)
    requires TurnStep(s, events[|events| - 1], x, y, c) && k < |AllTurns(y)|
    ensures TurnTraced(node, disk, events, c, k, AllTurns(y)[k])
  {
    var n := |events| - 1;
    if k < |AllTurns(x)| {
      assert TurnTraced(node, disk, events[..n], c, k, AllTurns(x)[k]);
      var i: nat :| StartsAs(node, disk, events[..n], i, c, k, AllTurns(x)[k]);
      SamePlace(node, disk, events, n, i, c);
      assert StartsAs(node, disk, events, i, c, k, AllTurns(y)[k]);
    } else {
      assert StartsAs(node, disk, events, n, c, k, AllTurns(y)[k]);
    }
  }

  lemma {:induction false} MessageHasTurn(
    node: Node, disk: Devices, events: seq<Event>, c: nat, s: State, x: Conn, y: Conn, i: nat)
    requires events != [] && TurnsTraced(node, disk, events[..|events| - 1], c, AllTurns(x))
    requires s == Before(node, disk, events, |events| - 1)
    requires TurnStep(s, events[|events| - 1], x, y, c)
    ensures MessageTraced(node, disk, events, c, AllTurns(y), i)
  {
    var n := |events| - 1;
    if i < n {
      SamePlace(node, disk, events, n, i, c);
      assert MessageTraced(node, disk, events[..n], c, AllTurns(x), i);
    }
  }

  /** A turn has one message, and a connection one Hello that latches it. */
  lemma {:induction false} OneMessageOneLatch(node: Node, disk: Devices, events: seq<Event>, c: nat, i: nat, j: nat)
    requires Sound(disk)
    ensures forall k :: ReceivesAt(node, disk, events, i, c, k) && ReceivesAt(node, disk, events, j, c, k) ==> i == j
    ensures LatchesAt(node, disk, events, i, c) && LatchesAt(node, disk, events, j, c) ==> i == j
  {
    if i < j {
      EarlierExcludes(node, disk, events, c, i, j);
    } else if j < i {
      EarlierExcludes(node, disk, events, c, j, i);
    }
  }

  lemma {:induction false} EarlierExcludes(node: Node, disk: Devices, events: seq<Event>, c: nat, i: nat, j: nat)
    requires Sound(disk) && i < j
    ensures forall k :: ReceivesAt(node, disk, events, i, c, k) ==> !ReceivesAt(node, disk, events, j, c, k)
    ensures LatchesAt(node, disk, events, i, c) ==> !LatchesAt(node, disk, events, j, c)
  {
    if j < |events| {
      var s := Before(node, disk, events, j);
      IsTraced(node, disk, events[..j], c);
      SamePlace(node, disk, events, j, i, c);
      if At(s, c, true) {
        assert AllTurns(s.conns[c]) == s.conns[c].session.turns;
        assert MessageTraced(node, disk, events[..j], c, AllTurns(s.conns[c]), i);
      }
    }
  }

  // ----- which key seals a frame -----

  /** The frame answers the message at i: a reply of the read loop to it, or a frame of the turn it
      started; either way under the key that opened it. */
  ghost predicate Answers(node: Node, disk: Devices, events: seq<Event>, i: nat, f: SealedFrame) {
    && OpensAt(node, disk, events, i, f.conn)
    && Some(f.key) == KeyOf(Before(node, disk, events, i), events[i])
    && (f.fromFile <==> SelectKey(Before(node, disk, events, i).conns[f.conn].session, events[i].fileKey).fromFile)
    && (f.turn.Some? ==> ReceivesAt(node, disk, events, i, f.conn, f.turn.value))
  }

  /** The key that opens an envelope now. */
  function KeyOf(s: State, e: Event): Option<Bytes>
    requires e.Message?
  {
    if e.c !in s.conns then None
    else
      var selected := SelectKey(s.conns[e.c].session, e.fileKey);
      if selected.Use? then Some(selected.key) else None
  }

  ghost predicate FrameTraced(node: Node, disk: Devices, events: seq<Event>, f: SealedFrame) {
    exists i: nat :: Answers(node, disk, events, i, f)
  }

  /** The reply of the read loop to a message, if it has one under a key. */
  function RepliesTo(s: State, e: Event): seq<SealedFrame>
    requires e.Message?
  {
    if !OpensNow(s, e, e.c) then []
    else
      var x, inner := s.conns[e.c].session, e.content.inner;
      if inner.HealthCheck? || (inner.UserMessage? && !MayInfer(x, s.pins))
      then [SealedFrame(e.c, None, e.content.key, SelectKey(x, e.fileKey).fromFile)] else []
  }

  function FramesOf(s: State, c: nat, turn: nat): seq<SealedFrame> {
    if c !in s.conns || turn >= |s.conns[c].session.turns| then []
    else
      var x := s.conns[c].session.turns[turn];
      [SealedFrame(c, Some(turn), x.key, x.fromFile)]
  }

  /** What one step adds to the log. */
  function SealedBy(s: State, e: Event): seq<SealedFrame> {
    if e.Message? then RepliesTo(s, e) else if e.TurnSends? then FramesOf(s, e.c, e.turn) else []
  }

  lemma InferSeals(s: State, c: nat, x: Session, turn: Option<Turn>)
    ensures Infer(s, c, x, turn).sealed == s.sealed
  {
  }

  lemma ReceiveSeals(s: State, e: Event)
    requires e.Message? && At(s, e.c, true)
    ensures Receive(s, e.c, e.content, e.userId, e.fileKey).sealed == s.sealed + RepliesTo(s, e)
  {
    var x := s.conns[e.c].session;
    if OpensNow(s, e, e.c) && e.content.inner.UserMessage? && MayInfer(x, s.pins) {
      var prompt, fromFile := e.content.inner.prompt, SelectKey(x, e.fileKey).fromFile;
      var turn := if prompt.None? then None else Some(Turn(e.content.key, fromFile, e.userId, prompt.value));
      InferSeals(s.(openings := s.openings + [OpenedFrame(e.c, fromFile)]), e.c, x, turn);
      assert Receive(s, e.c, e.content, e.userId, e.fileKey).sealed == s.sealed;
    } else {
      ReplySeals(s, e);
    }
  }

  lemma ReplySeals(s: State, e: Event)
    requires e.Message? && At(s, e.c, true)
    requires !(OpensNow(s, e, e.c) && e.content.inner.UserMessage? && MayInfer(s.conns[e.c].session, s.pins))
    ensures Receive(s, e.c, e.content, e.userId, e.fileKey).sealed == s.sealed + RepliesTo(s, e)
  {
  }

  lemma StepSeals(node: Node, s: State, e: Event)
    ensures Step(node, s, e).sealed == s.sealed + SealedBy(s, e)
  {
    if e.Message? {
      if At(s, e.c, true) {
        ReceiveSeals(s, e);
      }
    } else if e.Confirming? {
      if At(s, e.c, true) {
        assert Confirm(node, s, e.c, e.tagText, e.now, e.writes).sealed == s.sealed;
      }
    } else {
      OtherSeals(node, s, e);
    }
  }

  lemma OtherSeals(node: Node, s: State, e: Event)
    requires !e.Message? && !e.Confirming?
    ensures Step(node, s, e).sealed == s.sealed + SealedBy(s, e)
  {
  }

  lemma {:induction false} FramesTraced(node: Node, disk: Devices, events: seq<Event>)
    requires Sound(disk)
    ensures forall f :: f in Play(node, Fresh(disk), events).sealed ==> FrameTraced(node, disk, events, f)
  {
    if events != [] {
      var n := |events| - 1;
      var s := Before(node, disk, events, n);
      FramesTraced(node, disk, events[..n]);
      StepSeals(node, s, events[n]);
      forall f | f in Play(node, Fresh(disk), events).sealed
        ensures FrameTraced(node, disk, events, f)
      {
        if f in s.sealed {
          var i: nat :| Answers(node, disk, events[..n], i, f);
          SamePlace(node, disk, events, n, i, f.conn);
          assert Answers(node, disk, events, i, f);
        } else if f.turn.None? {
          assert Answers(node, disk, events, n, f);
        } else {
          TurnFrameTraced(node, disk, events, s, f);
        }
      }
    }
  }

  lemma {:induction false} TurnFrameTraced(node: Node, disk: Devices, events: seq<Event>, s: State, f: SealedFrame)
    requires Sound(disk) && events != [] && s == Before(node, disk, events, |events| - 1)
    requires f.conn in s.conns && f.turn.Some? && f.turn.value < |s.conns[f.conn].session.turns|
    requires
      var turn := s.conns[f.conn].session.turns[f.turn.value];
      f.key == turn.key && f.fromFile == turn.fromFile
    ensures FrameTraced(node, disk, events, f)
  {
    var n, k := |events| - 1, f.turn.value;
    IsTraced(node, disk, events[..n], f.conn);
    var turns := AllTurns(s.conns[f.conn]);
    assert TurnTraced(node, disk, events[..n], f.conn, k, turns[k]);
    var i: nat :| StartsAs(node, disk, events[..n], i, f.conn, k, turns[k]);
    SamePlace(node, disk, events, n, i, f.conn);
    assert Answers(node, disk, events, i, f);
  }

  /** When a message is opened: the file key is used exactly on a connection not latched so far. */
  lemma {:induction false} OpenedWithFileKeyIff(node: Node, disk: Devices, events: seq<Event>, i: nat, c: nat)
    requires Sound(disk) && OpensAt(node, disk, events, i, c)
    ensures
      var x := Before(node, disk, events, i).conns[c].session;
      && (SelectKey(x, events[i].fileKey).fromFile <==> !x.started)
      && (!x.started <==> forall j: nat :: LatchesAt(node, disk, events, j, c) ==> i < j)
  {
    PlayKeeps(node, Fresh(disk), events[..i]);
    IsTraced(node, disk, events[..i], c);
    var s := Before(node, disk, events, i);
    assert ConnOk(node, s.conns[c], s.pins);
    if s.conns[c].session.started {
      var j: nat :| LatchesAt(node, disk, events[..i], j, c);
      SamePlace(node, disk, events, i, j, c);
      assert LatchesAt(node, disk, events, j, c);
    } else {
      forall j: nat | LatchesAt(node, disk, events, j, c)
        ensures i < j
      {
        if j < i {
          SamePlace(node, disk, events, i, j, c);
        }
      }
    }
  }

  /** The frame answers a message received at i; it is under the file key, the one given with that
      message, exactly if the connection was latched by no Hello before it, and under the
      connection's session key otherwise. */
  ghost predicate SealedRightly(node: Node, disk: Devices, events: seq<Event>, f: SealedFrame, i: nat) {
    && Answers(node, disk, events, i, f)
    && (f.fromFile <==> forall j: nat :: LatchesAt(node, disk, events, j, f.conn) ==> i < j)
    && (f.fromFile ==> events[i].fileKey == Some(f.key))
    && (!f.fromFile ==> Before(node, disk, events, i).conns[f.conn].session.key == Some(f.key))
  }

  /** Over every run, of every frame ever sealed: it is under the file key if and only if the
      message it answers was received before the Hello that latched the connection, and otherwise
      under the session key that the connection still has. */
  lemma {:induction false} FileKeyIffReceivedBeforeLatch(node: Node, disk: Devices, events: seq<Event>, f: SealedFrame)
    requires Sound(disk) && f in Play(node, Fresh(disk), events).sealed
    ensures exists i: nat :: SealedRightly(node, disk, events, f, i)
    ensures
      var s := Play(node, Fresh(disk), events);
      f.conn in s.conns && !f.fromFile ==> s.conns[f.conn].session.key == Some(f.key)
  {
    FramesTraced(node, disk, events);
    assert FrameTraced(node, disk, events, f);
    var i: nat :| Answers(node, disk, events, i, f);
    OpenedWithFileKeyIff(node, disk, events, i, f.conn);
    assert SealedRightly(node, disk, events, f, i);
    PlayKeeps(node, Fresh(disk), events[..i]);
    Continued(node, disk, events, i);
    assert ConnContinues(Before(node, disk, events, i), Play(node, Fresh(disk), events), f.conn);
  }

  /** So of a connection latched at j, the turns under the file key are those it had been asked for
      by then, however the run goes on; every later one is under its session key. */
  lemma {:induction false} FileKeyTurnsAreTheFirst(node: Node, disk: Devices, events: seq<Event>, j: nat, c: nat, k: nat)
    requires Sound(disk) && LatchesAt(node, disk, events, j, c)
    requires
      var s := Play(node, Fresh(disk), events);
      c in s.conns && k < |s.conns[c].session.turns|
    ensures
      var x, first := Play(node, Fresh(disk), events).conns[c].session, |Before(node, disk, events, j).conns[c].session.turns|;
      && (x.turns[k].fromFile <==> k < first)
      && (!x.turns[k].fromFile ==> x.key == Some(x.turns[k].key))
  {
    var s := Play(node, Fresh(disk), events);
    var turn := AllTurns(s.conns[c])[k];
    IsTraced(node, disk, events, c);
    assert TurnTraced(node, disk, events, c, k, turn);
    var i: nat :| StartsAs(node, disk, events, i, c, k, turn);
    OpenedWithFileKeyIff(node, disk, events, i, c);
    LatchedBetween(node, disk, events, i, j, c, k);
    PlayKeeps(node, Fresh(disk), events);
    assert ConnOk(node, s.conns[c], s.pins);
  }

  lemma {:induction false} LatchedBetween(
    node: Node, disk: Devices, events: seq<Event>, i: nat, j: nat, c: nat, k: nat)
    requires Sound(disk) && LatchesAt(node, disk, events, j, c) && ReceivesAt(node, disk, events, i, c, k)
    ensures i < j <==> k < |Before(node, disk, events, j).conns[c].session.turns|
    ensures i < j <==> forall l: nat :: LatchesAt(node, disk, events, l, c) ==> i < l
  {
    var s := Before(node, disk, events, j);
    IsTraced(node, disk, events[..j], c);
    assert AllTurns(s.conns[c]) == s.conns[c].session.turns;
    forall l: nat | LatchesAt(node, disk, events, l, c)
      ensures l == j
    {
      OneMessageOneLatch(node, disk, events, c, l, j);
    }
    if i < j {
      SamePlace(node, disk, events, j, i, c);
      assert MessageTraced(node, disk, events[..j], c, AllTurns(s.conns[c]), i);
    } else if k < |s.conns[c].session.turns| {
      assert TurnTraced(node, disk, events[..j], c, k, s.conns[c].session.turns[k]);
      var h: nat :| StartsAs(node, disk, events[..j], h, c, k, s.conns[c].session.turns[k]);
      SamePlace(node, disk, events, j, h, c);
      OneMessageOneLatch(node, disk, events, c, h, i);
    }
  }

  // ----- a run -----

  function EarlierTurn(fileKey: Bytes, h: Hello, around: Surroundings): seq<Event> {
    [] + [Connect(0)] + [Message(0, SealedUnder(fileKey, UserMessage(Some("hi"))), "u", Some(fileKey))]
       + [Greeting(0, Some(h), around)] + [TurnSends(0, 0)]
  }

  lemma {:induction false} PlayThen(node: Node, s: State, events: seq<Event>, e: Event)
    ensures Play(node, s, events + [e]) == Step(node, Play(node, s, events), e)
  {
    assert (events + [e])[..|events|] == events;
  }

  /** Connected, and asked for a turn under the file key. */
  function AskedByFile(fileKey: Bytes): State {
    Fresh(map[]).(
      conns := map[0 := Conn(StartedTurn(NEW_SESSION, Turn(fileKey, true, "u", "hi")), Idle)], used := {0},
      openings := [OpenedFrame(0, true)], runs := [Inference(false, "", "")])
  }

  lemma AskingByFile(node: Node, fileKey: Bytes)
    ensures
      var message := Message(0, SealedUnder(fileKey, UserMessage(Some("hi"))), "u", Some(fileKey));
      Step(node, Step(node, Fresh(map[]), Connect(0)), message) == AskedByFile(fileKey)
  {
  }

  lemma LatchedThenSends(node: Node, fileKey: Bytes, h: Hello, around: Surroundings)
    ensures
      var t := Step(node, Step(node, AskedByFile(fileKey), Greeting(0, Some(h), around)), TurnSends(0, 0));
      0 in t.conns && t.conns[0].session.started && t.sealed == [SealedFrame(0, Some(0), fileKey, true)]
  {
  }

  /** A frame under the file key on a latched connection: the turn was asked for before the Hello. */
  lemma EarlierTurnKeepsTheFileKey(node: Node, fileKey: Bytes, h: Hello, around: Surroundings)
    ensures
      var s := Play(node, Fresh(map[]), EarlierTurn(fileKey, h, around));
      && 0 in s.conns && s.conns[0].session.started
      && s.sealed == [SealedFrame(0, Some(0), fileKey, true)]
  {
    var s0, message := Fresh(map[]), Message(0, SealedUnder(fileKey, UserMessage(Some("hi"))), "u", Some(fileKey));
    PlayThen(node, s0, [], Connect(0));
    PlayThen(node, s0, [] + [Connect(0)], message);
    PlayThen(node, s0, [] + [Connect(0)] + [message], Greeting(0, Some(h), around));
    PlayThen(node, s0, [] + [Connect(0)] + [message] + [Greeting(0, Some(h), around)], TurnSends(0, 0));
    AskingByFile(node, fileKey);
    LatchedThenSends(node, fileKey, h, around);
  }
}
