/** The rotation protocol run without interference is the manager's Publish: the two descriptions
    of mint, publish and commit agree, on the node's keys and on the key the control plane holds. */
module Publishing {
  import opened Wrappers
  import opened Keys
  import Registration
  import opened Rotation

  /** What the rotation machine sees of an answer; only a lost reply differs from a refusal. */
  function ReplyOf(answer: Registration.Answer, replyLost: bool): Reply {
    match answer
    case Ok(_, _, _) => Accepted
    case Unreachable => if replyLost then ReplyLost else Refused
    case NoToken => Refused
    case Status(code) => if code == 422 then Unprocessable else Refused
  }

  function MintEvent(w: Registration.World): Event {
    Mints(if w.secret.Some? then w.secret.value else "", if w.keyId.Some? then w.keyId.value else "", w.now,
          w.secret.Some? && w.keyId.Some? && w.mintWrites)
  }

  predicate Minted(w: Registration.World) {
    w.published && w.secret.Some? && w.keyId.Some? && w.mintWrites
  }

  /** The replies to the request and, should there be one, to the retry. */
  function Replies(w: Registration.World, replyLost: bool): seq<Event> {
    [Answers(ReplyOf(w.first, replyLost))] + [Answers(ReplyOf(w.second, replyLost))]
  }

  function PublishEvents(s: State, w: Registration.World, replyLost: bool): seq<Event> {
    [Starts(w.published, w.hasStatus)] +
    ([MintEvent(w)] + (Replies(w, replyLost) + RetireEvents(Registration.Writes(ScopedIds(s.keys), w.retireWrites))))
  }

  // ----- one part of the run after another -----

  lemma {:induction false} PlayAppend(s: State, a: seq<Event>, b: seq<Event>)
    ensures Play(s, a + b) == Play(Play(s, a), b)
  {
    if b == [] {
      assert a + b == a;
    } else {
      assert (a + b)[..|a + b| - 1] == a + b[..|b| - 1];
      PlayAppend(s, a, b[..|b| - 1]);
    }
  }

  lemma {:induction false} PlayNext(s: State, e: Event, rest: seq<Event>)
    ensures Play(s, [e] + rest) == Play(Step(s, e), rest)
  {
    PlayAppend(s, [e], rest);
    assert [e][..0] == [];
  }

  ghost predicate CanStart(s: State, w: Registration.World) {
    && (s.phase.Resting? || s.phase.Committed?)
    && (Minted(w) ==> Drawn(s, w.secret.value, w.keyId.value))
    && (w.secret.Some? ==> |w.secret.value| >= 4)
  }

  function Grown(s: State, w: Registration.World): seq<Key>
    requires Minted(w) ==> |w.secret.value| >= 4
  {
    if Minted(w) then s.keys + [NewKey(w.keyId.value, CONTROL_PLANE_NAME, w.secret.value, w.now, CONTROL_PLANE_SCOPE)] else s.keys
  }

  function Superseded(s: State, w: Registration.World): seq<string> {
    if Minted(w) then ScopedIds(s.keys) else []
  }

  /** Both replies: the server's key and the answer that counts are the exchange's. */
  lemma Exchanged(t: State, r: Registration.Request, w: Registration.World, replyLost: bool)
    requires t.phase.Sending? && t.phase.published == r.inferenceKey && t.phase.status == r.hasStatus
    ensures
      var (sent, answer) := Registration.Exchange(r, w.first, w.second);
      var u := Step(Step(t, Answers(ReplyOf(w.first, replyLost))), Answers(ReplyOf(w.second, replyLost)));
      && u.keys == t.keys && u.server == Registration.ServerKey(t.server, sent, answer, replyLost)
      && u.phase == if !answer.Ok? || r.inferenceKey.None? then Resting
                    else if t.phase.superseded == [] then Committed(t.phase.newId, false)
                    else Committing(t.phase.superseded, t.phase.newId, false)
  {
  }

  lemma {:induction false} NothingToRetire(s: State, writes: seq<bool>)
    requires !s.phase.Committing?
    ensures Play(s, RetireEvents(writes)) == s
  {
    if writes != [] {
      assert RetireEvents(writes)[..|writes| - 1] == RetireEvents(writes[..|writes| - 1]);
      NothingToRetire(s, writes[..|writes| - 1]);
    }
  }

  /** Starting, minting, the one or two replies and the retirements, with nothing in between, leave
      the node's keys and the control plane's key as the method does. */
  lemma UninterruptedPublish(s: State, url: string, id: string, w: Registration.World, replyLost: bool)
    requires CanStart(s, w)
    ensures
      var r := Registration.Request(url, id, w.hasStatus, Registration.KeyToPublish(w));
      var (sent, answer) := Registration.Exchange(r, w.first, w.second);
      var t := Play(s, PublishEvents(s, w, replyLost));
      && t.keys == Registration.KeysAfter(s.keys, w, answer)
      && t.server == Registration.ServerKey(s.server, sent, answer, replyLost)
  {
    var r := Registration.Request(url, id, w.hasStatus, Registration.KeyToPublish(w));
    var retires := RetireEvents(Registration.Writes(ScopedIds(s.keys), w.retireWrites));
    var a, b := Answers(ReplyOf(w.first, replyLost)), Answers(ReplyOf(w.second, replyLost));
    var s1 := Step(s, Starts(w.published, w.hasStatus));
    var s2 := Step(s1, MintEvent(w));
    PlayNext(s, Starts(w.published, w.hasStatus), [MintEvent(w)] + (Replies(w, replyLost) + retires));
    PlayNext(s1, MintEvent(w), Replies(w, replyLost) + retires);
    assert Replies(w, replyLost) + retires == [a] + ([b] + retires);
    PlayNext(s2, a, [b] + retires);
    PlayNext(Step(s2, a), b, retires);
    Exchanged(s2, r, w, replyLost);
    Retired(s, w, Step(Step(s2, a), b), Registration.Exchange(r, w.first, w.second).1);
  }

  lemma Retired(s: State, w: Registration.World, u: State, answer: Registration.Answer)
    requires CanStart(s, w) && u.keys == Grown(s, w)
    requires u.phase == if !answer.Ok? || !Minted(w) then Resting
                        else if Superseded(s, w) == [] then Committed(w.keyId.value, false)
                        else Committing(Superseded(s, w), w.keyId.value, false)
    ensures
      var t := Play(u, RetireEvents(Registration.Writes(ScopedIds(s.keys), w.retireWrites)));
      t.keys == Registration.KeysAfter(s.keys, w, answer) && t.server == u.server
  {
    var ids := ScopedIds(s.keys);
    var writes := Registration.Writes(ids, w.retireWrites);
    if u.phase.Committing? {
      CommitRuns(u, writes);
      assert ids[..|writes|] == ids;
    } else {
      NothingToRetire(u, writes);
    }
  }
}
