/** One streamed reply (internal/lanserve/router.go, generate) and several of them on one
    connection.  Every write of a frame may fail; an interrupt closes the token stream. */
module TurnFrames {
  import opened Text
  import opened Wrappers

  datatype Frame =
    | Processing | Generating
    | Delta(index: nat, text: string)
    | Metadata(inputTokens: nat, outputTokens: nat)
    | Completed | Failed

  datatype Token = Broken | Chunk(text: string, promptTokens: nat, last: bool)

  /** What a turn meets: compute switched on, the stream opening, and the tokens until the
      channel closes. */
  datatype Setting = Setting(computeOn: bool, streamOpens: bool, tokens: seq<Token>)

  // ----- the grammar of a turn -----

  datatype Stage = Begun | Accepted | Streaming(next: nat) | Described | Over

  function Follow(stage: Stage, f: Frame): Option<Stage> {
    match (stage, f)
    case (Begun, Processing) => Some(Accepted)
    case (Accepted, Generating) => Some(Streaming(0))
    case (Accepted, Failed) => Some(Over)
    case (Streaming(n), Delta(i, _)) => if i == n then Some(Streaming(n + 1)) else None
    case (Streaming(n), Metadata(_, outputs)) => if outputs == n then Some(Described) else None
    case (Streaming(_), Failed) => Some(Over)
    case (Described, Completed) => Some(Over)
    case _ => None
  }

  function FollowAll(stage: Stage, frames: seq<Frame>): Option<Stage>
    decreases |frames|
  {
    if frames == [] then Some(stage)
    else
      var next := Follow(stage, frames[0]);
      if next.None? then None else FollowAll(next.value, frames[1..])
  }

  /** The frames are a beginning of a well-formed turn. */
  predicate WellFormed(frames: seq<Frame>) {
    FollowAll(Begun, frames).Some?
  }

  lemma {:induction false} FollowAppend(stage: Stage, a: seq<Frame>, b: seq<Frame>)
    ensures FollowAll(stage, a + b) ==
      if FollowAll(stage, a).None? then None else FollowAll(FollowAll(stage, a).value, b)
    decreases |a|
  {
    if a == [] {
      assert a + b == b;
    } else {
      assert (a + b)[0] == a[0] && (a + b)[1..] == a[1..] + b;
      if Follow(stage, a[0]).Some? {
        FollowAppend(Follow(stage, a[0]).value, a[1..], b);
      }
    }
  }

  // ----- what a turn tries to send -----

  function Streamed(tokens: seq<Token>, next: nat, inputs: nat): seq<Frame>
    decreases |tokens|, 0
  {
    if tokens == [] then [Metadata(inputs, next), Completed]
    else if tokens[0].Broken? then [Failed]
    else
      var Chunk(text, promptTokens, last) := tokens[0];
      var inputs' := if promptTokens > 0 then promptTokens else inputs;
      if text != "" then [Delta(next, text)] + Remaining(tokens[1..], last, next + 1, inputs')
      else Remaining(tokens[1..], last, next, inputs')
  }

  function Remaining(tokens: seq<Token>, stopped: bool, next: nat, inputs: nat): seq<Frame>
    decreases |tokens|, 1
  {
    if stopped then [Metadata(inputs, next), Completed] else Streamed(tokens, next, inputs)
  }

  function Script(at: Setting): seq<Frame> {
    [Processing] +
    if !at.computeOn then [Failed]
    else [Generating] + if at.streamOpens then Streamed(at.tokens, 0, 0) else [Failed]
  }

  /** What goes out of the frames still to try, from attempt k on: a failed write ends the
      turn, except that the write of the metadata is not checked. */
  function Delivered(rest: seq<Frame>, k: nat, writes: nat -> bool): seq<Frame>
    decreases |rest|
  {
    if rest == [] then []
    else if writes(k) then [rest[0]] + Delivered(rest[1..], k + 1, writes)
    else if rest[0].Metadata? then Delivered(rest[1..], k + 1, writes)
    else []
  }

  lemma {:induction false} DeliveredPrefix(a: seq<Frame>, b: seq<Frame>, k: nat, writes: nat -> bool)
    requires forall j :: k <= j < k + |a| ==> writes(j)
    ensures Delivered(a + b, k, writes) == a + Delivered(b, k + |a|, writes)
    decreases |a|
  {
    if a == [] {
      assert a + b == b;
    } else {
      assert (a + b)[1..] == a[1..] + b;
      DeliveredPrefix(a[1..], b, k + 1, writes);
    }
  }

  lemma DeliveredHead(f: Frame, rest: seq<Frame>, k: nat, writes: nat -> bool)
    ensures writes(k) ==> Delivered([f] + rest, k, writes) == [f] + Delivered(rest, k + 1, writes)
    ensures !writes(k) ==> Delivered([f] + rest, k, writes) == if f.Metadata? then Delivered(rest, k + 1, writes) else []
  {
    assert ([f] + rest)[1..] == rest;
  }

  method Generate(at: Setting, writes: nat -> bool) returns (sent: seq<Frame>)
    ensures sent == Delivered(Script(at), 0, writes)
  {
    sent := [];
    ghost var afterProcessing := if !at.computeOn then [Failed]
      else [Generating] + if at.streamOpens then Streamed(at.tokens, 0, 0) else [Failed];
    DeliveredHead(Processing, afterProcessing, 0, writes);
    if !writes(0) {
      return;
    }
    sent := [Processing];
    DeliveredHead(Failed, [], 1, writes);
    if !at.computeOn {
      if writes(1) {
        sent := sent + [Failed];
      }
      return;
    }
    DeliveredHead(Generating, if at.streamOpens then Streamed(at.tokens, 0, 0) else [Failed], 1, writes);
    if !writes(1) {
      return;
    }
    sent := sent + [Generating];
    var streamed := Stream(at, writes);
    sent := sent + streamed;
  }

  /** From opening the stream on, after two frames have gone out. */
  method Stream(at: Setting, writes: nat -> bool) returns (sent: seq<Frame>)
    ensures sent == Delivered(if at.streamOpens then Streamed(at.tokens, 0, 0) else [Failed], 2, writes)
  {
    sent := [];
    if !at.streamOpens {
      DeliveredHead(Failed, [], 2, writes);
      if writes(2) {
        sent := [Failed];
      }
      return;
    }
    ghost var whole := Delivered(Streamed(at.tokens, 0, 0), 2, writes);
    var index, inputTokens, i, attempt := 0, 0, 0, 2;
    var stopped := false;
    while i < |at.tokens| && !stopped
      invariant i <= |at.tokens|
      invariant whole == sent + Delivered(Remaining(at.tokens[i..], stopped, index, inputTokens), attempt, writes)
    {
      ghost var left := at.tokens[i + 1..];
      assert at.tokens[i..] == [at.tokens[i]] + left;
      var more, going;
      more, index, inputTokens, attempt, going := StreamToken(at.tokens[i], left, index, inputTokens, attempt, writes);
      if !going {
        sent := sent + more;
        return;
      }
      Regroup(sent, more, Delivered(Remaining(left, at.tokens[i].last, index, inputTokens), attempt, writes));
      sent := sent + more;
      i, stopped := i + 1, at.tokens[i].last;
    }
    var ending := EndTurn(inputTokens, index, attempt, writes);
    sent := sent + ending;
  }

  /** One round of the loop over the tokens. */
  method StreamToken(token: Token, ghost left: seq<Token>, index0: nat, inputs0: nat, attempt0: nat, writes: nat -> bool)
    returns (sent: seq<Frame>, index: nat, inputTokens: nat, attempt: nat, going: bool)
    ensures going ==> token.Chunk?
    ensures Delivered(Streamed([token] + left, index0, inputs0), attempt0, writes) ==
      sent + if going then Delivered(Remaining(left, token.last, index, inputTokens), attempt, writes) else []
  {
    sent, index, inputTokens, attempt, going := [], index0, inputs0, attempt0, false;
    assert ([token] + left)[1..] == left;
    if token.Broken? {
      DeliveredHead(Failed, [], attempt, writes);
      if writes(attempt) {
        sent := [Failed];
      }
      return;
    }
    if token.promptTokens > 0 {
      inputTokens := token.promptTokens;
    }
    if token.text != "" {
      DeliveredHead(Delta(index, token.text), Remaining(left, token.last, index + 1, inputTokens), attempt, writes);
      if !writes(attempt) {
        return;
      }
      sent := [Delta(index, token.text)];
      index, attempt := index + 1, attempt + 1;
    }
    going := true;
  }

  /** The write of the metadata is not checked. */
  method EndTurn(inputTokens: nat, index: nat, attempt: nat, writes: nat -> bool) returns (sent: seq<Frame>)
    ensures sent == Delivered([Metadata(inputTokens, index), Completed], attempt, writes)
  {
    sent := [];
    DeliveredHead(Metadata(inputTokens, index), [Completed], attempt, writes);
    DeliveredHead(Completed, [], attempt + 1, writes);
    assert [Metadata(inputTokens, index)] + [Completed] == [Metadata(inputTokens, index), Completed];
    if writes(attempt) {
      sent := [Metadata(inputTokens, index)];
    }
    if writes(attempt + 1) {
      sent := sent + [Completed];
    }
  }

  // ----- the script is a whole turn -----

  lemma FollowOne(stage: Stage, f: Frame)
    ensures FollowAll(stage, [f]) == Follow(stage, f)
  {
    assert [f][1..] == [];
  }

  lemma {:induction false} StreamedIsWellFormed(tokens: seq<Token>, next: nat, inputs: nat)
    ensures FollowAll(Streaming(next), Streamed(tokens, next, inputs)) == Some(Over)
  {
    FollowOne(Streaming(next), Failed);
    if tokens == [] {
      EndingIsWellFormed(next, inputs);
    } else if tokens[0].Chunk? {
      var Chunk(text, promptTokens, last) := tokens[0];
      var inputs' := if promptTokens > 0 then promptTokens else inputs;
      var next' := if text != "" then next + 1 else next;
      EndingIsWellFormed(next', inputs');
      StreamedIsWellFormed(tokens[1..], next', inputs');
      FollowOne(Streaming(next), Delta(next, text));
      FollowAppend(Streaming(next), [Delta(next, text)], Remaining(tokens[1..], last, next', inputs'));
    }
  }

  lemma EndingIsWellFormed(n: nat, inputs: nat)
    ensures FollowAll(Streaming(n), [Metadata(inputs, n), Completed]) == Some(Over)
  {
    FollowOne(Streaming(n), Metadata(inputs, n));
    FollowOne(Described, Completed);
    FollowAppend(Streaming(n), [Metadata(inputs, n)], [Completed]);
    assert [Metadata(inputs, n)] + [Completed] == [Metadata(inputs, n), Completed];
  }

  lemma ScriptIsWholeTurn(at: Setting)
    ensures FollowAll(Begun, Script(at)) == Some(Over)
  {
    var stream := if at.streamOpens then Streamed(at.tokens, 0, 0) else [Failed];
    StreamedIsWellFormed(at.tokens, 0, 0);
    FollowOne(Streaming(0), Failed);
    FollowOne(Accepted, Failed);
    FollowOne(Accepted, Generating);
    FollowOne(Begun, Processing);
    FollowAppend(Accepted, [Generating], stream);
    FollowAppend(Begun, [Processing], if !at.computeOn then [Failed] else [Generating] + stream);
  }

  /** Completed comes last, and only the metadata comes just before it. */
  lemma {:induction false} WholeTurnEnd(stage: Stage, frames: seq<Frame>, k: nat)
    requires FollowAll(stage, frames) == Some(Over) && k < |frames| && frames[k].Metadata?
    ensures k == |frames| - 2 && frames[k + 1] == Completed && FollowAll(stage, frames[..k]).Some?
    ensures FollowAll(stage, frames[..k]).value.Streaming?
  {
    FollowAppend(stage, frames[..k], frames[k..]);
    assert frames == frames[..k] + frames[k..];
    var rest := frames[k..];
    assert rest[0] == frames[k];
    var described := Follow(FollowAll(stage, frames[..k]).value, rest[0]);
    assert described == Some(Described);
    assert rest[1..] != [];
    assert FollowAll(Described, rest[1..]) == Some(Over);
    assert rest[1] == Completed;
    assert FollowAll(Over, rest[1..][1..]).Some?;
    assert rest[1..][1..] == [];
  }

  /** The one run of failures that breaks the grammar. */
  predicate LosesOnlyMetadata(script: seq<Frame>, writes: nat -> bool) {
    var n := |script|;
    && n >= 2 && script[n - 2].Metadata? && !writes(n - 2) && writes(n - 1)
    && forall j :: 0 <= j < n - 2 ==> writes(j)
  }

  function FirstFailure(k: nat, n: nat, writes: nat -> bool): (m: nat)
    requires k <= n
    ensures k <= m <= n && (forall j :: k <= j < m ==> writes(j)) && (m < n ==> !writes(m))
    decreases n - k
  {
    if k == n || !writes(k) then k else FirstFailure(k + 1, n, writes)
  }

  /** Up to its first failed write a script goes out; then nothing does, or what follows the metadata. */
  lemma {:induction false} DeliveredUpToFailure(script: seq<Frame>, m: nat, writes: nat -> bool)
    requires m <= |script| && (forall j :: 0 <= j < m ==> writes(j)) && (m < |script| ==> !writes(m))
    ensures Delivered(script, 0, writes) ==
      if m < |script| && script[m].Metadata? then script[..m] + Delivered(script[m..], m, writes) else script[..m]
  {
    DeliveredPrefix(script[..m], script[m..], 0, writes);
    assert script == script[..m] + script[m..];
    if m == |script| {
      assert script[m..] == [];
      assert script[..m] + [] == script[..m];
    } else if !script[m].Metadata? {
      DeliveredHead(script[m], script[m + 1..], m, writes);
      assert script[m..] == [script[m]] + script[m + 1..];
      assert script[..m] + [] == script[..m];
    }
  }

  /** Whatever the tokens, the interrupt and the failed writes: a turn's frames are a beginning
      of a well-formed turn, unless exactly the metadata is lost and `completed` still goes out. */
  lemma TurnKeepsGrammarIff(at: Setting, writes: nat -> bool)
    ensures WellFormed(Delivered(Script(at), 0, writes)) <==> !LosesOnlyMetadata(Script(at), writes)
  {
    ScriptIsWholeTurn(at);
    GrammarIff(Script(at), FirstFailure(0, |Script(at)|, writes), writes);
  }

  lemma GrammarIff(script: seq<Frame>, m: nat, writes: nat -> bool)
    requires FollowAll(Begun, script) == Some(Over)
    requires m <= |script| && (forall j :: 0 <= j < m ==> writes(j)) && (m < |script| ==> !writes(m))
    ensures WellFormed(Delivered(script, 0, writes)) <==> !LosesOnlyMetadata(script, writes)
  {
    DeliveredUpToFailure(script, m, writes);
    if m < |script| && script[m].Metadata? {
      WholeTurnEnd(Begun, script, m);
      assert script[m..] == [script[m]] + [Completed];
      LostMetadata(script, m, writes);
    } else {
      PrefixIsWellFormed(script, m);
    }
  }

  lemma PrefixIsWellFormed(script: seq<Frame>, k: nat)
    requires WellFormed(script) && k <= |script|
    ensures WellFormed(script[..k])
  {
    FollowAppend(Begun, script[..k], script[k..]);
    assert script == script[..k] + script[k..];
  }

  lemma LostMetadata(script: seq<Frame>, m: nat, writes: nat -> bool)
    requires m + 2 == |script| && script[m].Metadata? && script[m..] == [script[m]] + [Completed] && !writes(m)
    requires FollowAll(Begun, script[..m]).Some? && FollowAll(Begun, script[..m]).value.Streaming?
    ensures WellFormed(script[..m] + Delivered(script[m..], m, writes)) <==> !writes(m + 1)
  {
    DeliveredHead(script[m], [Completed], m, writes);
    DeliveredHead(Completed, [], m + 1, writes);
    FollowOne(FollowAll(Begun, script[..m]).value, Completed);
    FollowAppend(Begun, script[..m], Delivered(script[m..], m, writes));
  }

  /** With one write failing it does happen: an undescribed turn that is announced complete. */
  lemma MetadataLostExample(at: Setting, writes: nat -> bool)
    requires at == Setting(true, true, [Chunk("hi", 0, true)])
    requires forall k :: writes(k) <==> k != 3
    ensures Delivered(Script(at), 0, writes) == [Processing, Generating, Delta(0, "hi"), Completed]
    ensures !WellFormed(Delivered(Script(at), 0, writes))
  {
    var script := Script(at);
    var sent := [Processing, Generating, Delta(0, "hi")];
    assert script == sent + ([Metadata(0, 1)] + [Completed]);
    DeliveredPrefix(sent, [Metadata(0, 1)] + [Completed], 0, writes);
    DeliveredHead(Metadata(0, 1), [Completed], 3, writes);
    DeliveredHead(Completed, [], 4, writes);
    TurnKeepsGrammarIff(at, writes);
  }

  // ----- the deltas are the model's text -----

  /** The text produced up to the token marked last. */
  function Spoken(tokens: seq<Token>): seq<string> {
    if tokens == [] || tokens[0].Broken? then []
    else
      var rest := if tokens[0].last then [] else Spoken(tokens[1..]);
      if tokens[0].text != "" then [tokens[0].text] + rest else rest
  }

  function Deltas(frames: seq<Frame>): seq<string> {
    if frames == [] then []
    else if frames[0].Delta? then [frames[0].text] + Deltas(frames[1..])
    else Deltas(frames[1..])
  }

  lemma {:induction false} StreamedSpeaks(tokens: seq<Token>, next: nat, inputs: nat)
    ensures Deltas(Streamed(tokens, next, inputs)) == Spoken(tokens)
  {
    DeltasHead(Failed, []);
    if tokens == [] {
      DeltasHead(Metadata(inputs, next), [Completed]);
      DeltasHead(Completed, []);
    } else if tokens[0].Chunk? {
      var Chunk(text, promptTokens, last) := tokens[0];
      var inputs' := if promptTokens > 0 then promptTokens else inputs;
      var next' := if text != "" then next + 1 else next;
      DeltasHead(Metadata(inputs', next'), [Completed]);
      DeltasHead(Completed, []);
      StreamedSpeaks(tokens[1..], next', inputs');
      DeltasHead(Delta(next, text), Remaining(tokens[1..], last, next', inputs'));
    }
  }

  lemma DeltasHead(f: Frame, rest: seq<Frame>)
    ensures Deltas([f] + rest) == if f.Delta? then [f.text] + Deltas(rest) else Deltas(rest)
  {
    assert ([f] + rest)[1..] == rest;
  }

  // ----- how a turn ends -----

  /** The loop reads exactly these tokens and ends: at an error, at the last one, or with the channel. */
  predicate EndsAt(tokens: seq<Token>, k: nat) {
    && k <= |tokens| && (forall i :: 0 <= i < k ==> tokens[i].Chunk? && !tokens[i].last)
    && (k < |tokens| ==> tokens[k].Broken? || tokens[k].last)
  }

  predicate Breaks(tokens: seq<Token>, k: nat) {
    k < |tokens| && tokens[k].Broken?
  }

  /** Of the tokens read, the last that counts the prompt says how long it is. */
  ghost predicate Counted(tokens: seq<Token>, read: nat, before: nat, inputs: nat)
    requires read <= |tokens| && forall i :: 0 <= i < read ==> tokens[i].Chunk?
  {
    || (inputs == before && forall i :: 0 <= i < read ==> tokens[i].promptTokens == 0)
    || (exists i :: 0 <= i < read && LastCount(tokens, read, i) && tokens[i].promptTokens == inputs)
  }

  ghost predicate LastCount(tokens: seq<Token>, read: nat, i: nat)
    requires i < read <= |tokens| && forall j :: 0 <= j < read ==> tokens[j].Chunk?
  {
    tokens[i].promptTokens > 0 && forall j :: i < j < read ==> tokens[j].promptTokens == 0
  }

  /** How many tokens the loop takes in before the end: a token marked last counts. */
  function TakenIn(tokens: seq<Token>, k: nat): nat {
    if k < |tokens| && !tokens[k].Broken? then k + 1 else k
  }

  /** After the deltas a stream says that it failed if it broke, and otherwise what the prompt and the
      deltas came to, and that it is complete. */
  ghost predicate EndsWell(tokens: seq<Token>, k: nat, next: nat, inputs: nat, out: seq<Frame>)
    requires EndsAt(tokens, k)
  {
    var n := |Spoken(tokens)|;
    if Breaks(tokens, k) then |out| == n + 1 && out[n] == Failed
    else
      && |out| == n + 2 && out[n].Metadata? && out[n].outputTokens == next + n && out[n + 1] == Completed
      && Counted(tokens, TakenIn(tokens, k), inputs, out[n].inputTokens)
  }

  lemma {:induction false} StreamEnds(tokens: seq<Token>, k: nat, next: nat, inputs: nat)
    requires EndsAt(tokens, k)
    ensures EndsWell(tokens, k, next, inputs, Streamed(tokens, next, inputs))
  {
    if tokens != [] && tokens[0].Chunk? {
      if tokens[0].last {
        LastEnds(tokens, next, inputs);
      } else {
        var Chunk(text, promptTokens, _) := tokens[0];
        var inputs' := if promptTokens > 0 then promptTokens else inputs;
        var next' := if text != "" then next + 1 else next;
        StreamEnds(tokens[1..], k - 1, next', inputs');
        EndsOneLater(tokens, k, next, inputs, Streamed(tokens[1..], next', inputs'));
      }
    }
  }

  lemma LastEnds(tokens: seq<Token>, next: nat, inputs: nat)
    requires tokens != [] && tokens[0].Chunk? && tokens[0].last
    ensures EndsWell(tokens, 0, next, inputs, Streamed(tokens, next, inputs))
  {
    assert tokens[0].promptTokens > 0 ==> LastCount(tokens, 1, 0);
  }

  /** A token before the end moves it one on. */
  lemma EndsOneLater(tokens: seq<Token>, k: nat, next: nat, inputs: nat, rest: seq<Frame>)
    requires EndsAt(tokens, k) && k > 0
    requires
      var Chunk(text, promptTokens, _) := tokens[0];
      EndsWell(tokens[1..], k - 1, if text != "" then next + 1 else next, if promptTokens > 0 then promptTokens else inputs, rest)
    ensures EndsWell(tokens, k, next, inputs, if tokens[0].text != "" then [Delta(next, tokens[0].text)] + rest else rest)
  {
    if !Breaks(tokens, k) {
      CountedBehind(tokens, TakenIn(tokens, k), inputs, rest[|Spoken(tokens[1..])|].inputTokens);
    }
  }

  lemma CountedBehind(tokens: seq<Token>, read: nat, before: nat, inputs: nat)
    requires 0 < read <= |tokens| && forall i :: 0 <= i < read ==> tokens[i].Chunk?
    requires forall i :: 0 <= i < read - 1 ==> tokens[1..][i] == tokens[i + 1]
    requires Counted(tokens[1..], read - 1, if tokens[0].promptTokens > 0 then tokens[0].promptTokens else before, inputs)
    ensures Counted(tokens, read, before, inputs)
  {
    var rest := tokens[1..];
    if i :| 0 <= i < read - 1 && LastCount(rest, read - 1, i) && rest[i].promptTokens == inputs {
      forall j | i + 1 < j < read
        ensures tokens[j].promptTokens == 0
      {
        assert rest[j - 1] == tokens[j];
      }
      assert LastCount(tokens, read, i + 1);
    } else {
      forall j | 0 < j < read
        ensures tokens[j].promptTokens == 0
      {
        assert rest[j - 1] == tokens[j];
      }
      assert tokens[0].promptTokens > 0 ==> LastCount(tokens, read, 0);
    }
  }

  /** A whole turn: it is announced, refused without compute, and fails if the stream does not open;
      otherwise it is announced again and streams to one of its ends. */
  lemma TurnEnds(at: Setting, k: nat)
    requires EndsAt(at.tokens, k)
    ensures
      var script := Script(at);
      if !at.computeOn then script == [Processing, Failed]
      else if !at.streamOpens then script == [Processing, Generating, Failed]
      else
        && |script| > 2 && script[..2] == [Processing, Generating]
        && Deltas(script[2..]) == Spoken(at.tokens) && EndsWell(at.tokens, k, 0, 0, script[2..])
  {
    StreamedSpeaks(at.tokens, 0, 0);
    StreamEnds(at.tokens, k, 0, 0);
    var streamed := Streamed(at.tokens, 0, 0);
    if at.computeOn && at.streamOpens {
      assert Script(at) == [Processing, Generating] + streamed;
      assert Script(at)[2..] == streamed;
    }
  }

  // ----- several turns on one connection -----

  /** Turn t tries its next frame; the write mutex makes each attempt one step. */
  datatype Attempt = Attempt(turn: nat, ok: bool)

  datatype TurnProgress = TurnProgress(position: nat, alive: bool, sent: seq<Frame>)

  datatype Wire = Wire(log: seq<(nat, Frame)>, turns: seq<TurnProgress>)

  function Tried(p: TurnProgress, script: seq<Frame>, ok: bool): TurnProgress {
    if !p.alive || p.position >= |script| then p
    else if ok then p.(position := p.position + 1, sent := p.sent + [script[p.position]])
    else p.(position := p.position + 1, alive := script[p.position].Metadata?)
  }

  function Advance(w: Wire, scripts: seq<seq<Frame>>, a: Attempt): Wire
    requires |w.turns| == |scripts|
  {
    if a.turn >= |w.turns| then w
    else
      var p, script := w.turns[a.turn], scripts[a.turn];
      var writes := a.ok && p.alive && p.position < |script|;
      Wire(if writes then w.log + [(a.turn, script[p.position])] else w.log, w.turns[a.turn := Tried(p, script, a.ok)])
  }

  function Played(scripts: seq<seq<Frame>>, attempts: seq<Attempt>): (w: Wire)
    ensures |w.turns| == |scripts|
  {
    if attempts == [] then Wire([], seq(|scripts|, _ => TurnProgress(0, true, [])))
    else Advance(Played(scripts, attempts[..|attempts| - 1]), scripts, attempts[|attempts| - 1])
  }

  function OfTurn(log: seq<(nat, Frame)>, t: nat): seq<Frame> {
    if log == [] then []
    else
      var n := |log| - 1;
      OfTurn(log[..n], t) + if log[n].0 == t then [log[n].1] else []
  }

  /** A turn in the middle of its script: what it sent is the script so far, less a lost metadata. */
  ghost predicate OnScript(p: TurnProgress, script: seq<Frame>) {
    && p.position <= |script|
    && (p.sent == script[..p.position] || (!p.alive && p.position > 0 && p.sent == script[..p.position - 1])
        || SkippedMetadata(p, script))
  }

  ghost predicate SkippedMetadata(p: TurnProgress, script: seq<Frame>) {
    exists m :: 0 <= m < p.position && m < |script| && script[m].Metadata? && MetadataGap(p, script, m)
  }

  ghost predicate MetadataGap(p: TurnProgress, script: seq<Frame>, m: nat) {
    m < p.position <= |script| && (p.sent == script[..m] || (p.position == m + 2 && p.sent == script[..m] + [script[m + 1]]))
  }

  lemma {:induction false} LogSplitsByTurn(scripts: seq<seq<Frame>>, attempts: seq<Attempt>, t: nat)
    requires t < |scripts|
    ensures OfTurn(Played(scripts, attempts).log, t) == Played(scripts, attempts).turns[t].sent
  {
    if attempts != [] {
      var n := |attempts| - 1;
      LogSplitsByTurn(scripts, attempts[..n], t);
      var w := Played(scripts, attempts[..n]);
      var a := attempts[n];
      if a.turn < |scripts| && a.ok && w.turns[a.turn].alive && w.turns[a.turn].position < |scripts[a.turn]| {
        var log := w.log + [(a.turn, scripts[a.turn][w.turns[a.turn].position])];
        assert log[..|log| - 1] == w.log;
      }
    }
  }

  lemma {:induction false} TurnStaysOnScript(settings: seq<Setting>, scripts: seq<seq<Frame>>, attempts: seq<Attempt>, t: nat)
    requires |scripts| == |settings| && (forall i :: 0 <= i < |settings| ==> scripts[i] == Script(settings[i]))
    requires t < |scripts|
    ensures OnScript(Played(scripts, attempts).turns[t], scripts[t])
  {
    if attempts != [] {
      var n := |attempts| - 1;
      TurnStaysOnScript(settings, scripts, attempts[..n], t);
      if attempts[n].turn == t {
        var p, script := Played(scripts, attempts[..n]).turns[t], scripts[t];
        ScriptIsWholeTurn(settings[t]);
        TryKeepsScript(p, script, attempts[n].ok);
      }
    }
  }

  lemma TryKeepsScript(p: TurnProgress, script: seq<Frame>, ok: bool)
    requires FollowAll(Begun, script) == Some(Over) && OnScript(p, script)
    ensures OnScript(Tried(p, script, ok), script)
  {
    var p' := Tried(p, script, ok);
    if p.alive && p.position < |script| {
      if p.sent == script[..p.position] {
        assert script[..p'.position] == script[..p.position] + [script[p.position]];
        if !ok && script[p.position].Metadata? {
          assert MetadataGap(p', script, p.position);
        }
      } else {
        var m :| 0 <= m < p.position && m < |script| && script[m].Metadata? && MetadataGap(p, script, m);
        WholeTurnEnd(Begun, script, m);
        assert p.position == m + 1;
        assert p.sent == script[..m];
        assert MetadataGap(p', script, m);
      }
    }
  }

  /** Concurrent turns do not disturb one another: in any interleaving of attempts the frames
      of each turn keep the grammar, unless that turn lost its metadata and nothing else. */
  lemma {:induction false} EachTurnKeepsGrammar(settings: seq<Setting>, scripts: seq<seq<Frame>>, attempts: seq<Attempt>, t: nat)
    requires |scripts| == |settings| && (forall i :: 0 <= i < |settings| ==> scripts[i] == Script(settings[i]))
    requires t < |scripts|
    ensures
      var sent := OfTurn(Played(scripts, attempts).log, t);
      WellFormed(sent) ||
      (|scripts[t]| >= 2 && scripts[t][|scripts[t]| - 2].Metadata? && sent == scripts[t][..|scripts[t]| - 2] + [Completed])
  {
    LogSplitsByTurn(scripts, attempts, t);
    TurnStaysOnScript(settings, scripts, attempts, t);
    ScriptIsWholeTurn(settings[t]);
    OnScriptKeepsGrammar(Played(scripts, attempts).turns[t], scripts[t]);
  }

  lemma OnScriptKeepsGrammar(p: TurnProgress, script: seq<Frame>)
    requires FollowAll(Begun, script) == Some(Over) && OnScript(p, script)
    ensures WellFormed(p.sent) ||
      (|script| >= 2 && script[|script| - 2].Metadata? && p.sent == script[..|script| - 2] + [Completed])
  {
    if p.sent == script[..p.position] {
      PrefixIsWellFormed(script, p.position);
    } else if !p.alive && p.position > 0 && p.sent == script[..p.position - 1] {
      PrefixIsWellFormed(script, p.position - 1);
    } else {
      var m :| 0 <= m < p.position && m < |script| && script[m].Metadata? && MetadataGap(p, script, m);
      WholeTurnEnd(Begun, script, m);
      PrefixIsWellFormed(script, m);
    }
  }

  // ----- a turn among others sends what it would send alone -----

  /** How the writes of turn t went, in its own order. */
  function Own(attempts: seq<Attempt>, t: nat): seq<bool> {
    if attempts == [] then []
    else
      var n := |attempts| - 1;
      Own(attempts[..n], t) + if attempts[n].turn == t then [attempts[n].ok] else []
  }

  function TriedAll(script: seq<Frame>, oks: seq<bool>): TurnProgress {
    if oks == [] then TurnProgress(0, true, [])
    else Tried(TriedAll(script, oks[..|oks| - 1]), script, oks[|oks| - 1])
  }

  lemma {:induction false} OnlyOwnAttemptsCount(scripts: seq<seq<Frame>>, attempts: seq<Attempt>, t: nat)
    requires t < |scripts|
    ensures Played(scripts, attempts).turns[t] == TriedAll(scripts[t], Own(attempts, t))
  {
    if attempts != [] {
      var n := |attempts| - 1;
      OnlyOwnAttemptsCount(scripts, attempts[..n], t);
      var before := Own(attempts[..n], t);
      if attempts[n].turn == t {
        assert (before + [attempts[n].ok])[..|before|] == before;
      } else {
        assert before + [] == before;
      }
    }
  }

  /** After some attempts a turn has sent what goes out of the whole script, less what is left. */
  ghost predicate Underway(p: TurnProgress, script: seq<Frame>, tried: nat, writes: nat -> bool) {
    if p.alive then
      && p.position == (if tried < |script| then tried else |script|)
      && Delivered(script, 0, writes) == p.sent + Delivered(script[p.position..], p.position, writes)
    else p.sent == Delivered(script, 0, writes)
  }

  lemma TryDelivers(p: TurnProgress, script: seq<Frame>, tried: nat, writes: nat -> bool)
    requires Underway(p, script, tried, writes)
    ensures Underway(Tried(p, script, writes(tried)), script, tried + 1, writes)
  {
    if p.alive && p.position < |script| {
      var f, rest := script[tried], script[tried + 1..];
      assert script[tried..] == [f] + rest;
      DeliveredHead(f, rest, tried, writes);
      if writes(tried) {
        Regroup(p.sent, [f], Delivered(rest, tried + 1, writes));
      }
    }
  }

  lemma {:induction false} TriesDeliver(script: seq<Frame>, oks: seq<bool>, writes: nat -> bool)
    requires forall k :: 0 <= k < |oks| ==> writes(k) == oks[k]
    ensures Underway(TriedAll(script, oks), script, |oks|, writes)
  {
    if oks == [] {
      assert script[0..] == script;
    } else {
      var n := |oks| - 1;
      TriesDeliver(script, oks[..n], writes);
      TryDelivers(TriedAll(script, oks[..n]), script, n, writes);
    }
  }

  /** In any interleaving, a turn that has made all its attempts has sent exactly what the method
      sends alone, for the outcomes of its own writes. */
  lemma {:induction false} InterleavedTurnSendsAsAlone(at: Setting, scripts: seq<seq<Frame>>, attempts: seq<Attempt>, t: nat, writes: nat -> bool)
    requires t < |scripts| && scripts[t] == Script(at) && |Own(attempts, t)| >= |Script(at)|
    requires forall k :: 0 <= k < |Own(attempts, t)| ==> writes(k) == Own(attempts, t)[k]
    ensures OfTurn(Played(scripts, attempts).log, t) == Delivered(Script(at), 0, writes)
  {
    LogSplitsByTurn(scripts, attempts, t);
    OnlyOwnAttemptsCount(scripts, attempts, t);
    TriesDeliver(Script(at), Own(attempts, t), writes);
    var p := TriedAll(Script(at), Own(attempts, t));
    if p.alive {
      assert Script(at)[p.position..] == [];
    }
  }
}
