/** The manager's loop (internal/controlplane/heartbeat.go Run and step) interleaved with the
    calls that wake it, one critical section per step.  A caller first changes a field, then
    puts a token into the one-slot channel; the loop reads the fields, acts across several
    locks and a request, parks, and is woken by the slot or by its timer. */
module Wakeup {
  import opened Registration
  import opened Wrappers

  datatype Result = Idled | Withdrew | RegisteredOk | BeatOk | GaveUp

  datatype Pc =
    | Ready
    | Withdrawing
    | Naming(url: string)                              // about to make sure of the device id
    | Requesting(beat: bool, url: string, deviceId: string)
    | Blocking(beat: bool)
    | Dropping
    | Parked(result: Result)

  datatype Loop = Loop(
    f: Fields, slot: bool, kickers: nat,      // kickers: callers between their change and their kick
    pc: Pc, lastRead: string)

  datatype Event =
    | SetsUrl(url: string)
    | PushesToken
    | Kicks
    | Wakes(timer: bool)
    | Reads(capable: bool)
    | Withdraws
    | Names(drawn: Option<string>)                     // None: the device id file cannot be read or made
    | Answers(answer: Answer)
    | Blocks
    | Drops

  const START := Loop(NEW_FIELDS, false, 0, Ready, "")

  /** A device id once made is kept, whatever becomes of the registration. */
  function Named(s: Loop, drawn: Option<string>): Loop
    requires s.pc.Naming?
  {
    if s.f.deviceId != "" then s.(pc := Requesting(false, s.pc.url, s.f.deviceId))
    else if drawn.None? then s.(pc := Parked(GaveUp))
    else s.(f := s.f.(deviceId := drawn.value), pc := Requesting(false, s.pc.url, drawn.value))
  }

  function Answered(s: Loop, answer: Answer): Loop
    requires s.pc.Requesting?
  {
    if Unauthorized(answer) then s.(pc := Blocking(s.pc.beat))
    else if s.pc.beat then
      s.(f := AfterHeartbeat(s.f, answer), pc := Parked(if answer.Ok? then BeatOk else GaveUp))
    else
      s.(f := AfterRegister(s.f, s.pc.url, s.pc.deviceId, answer), pc := Parked(if answer.Ok? then RegisteredOk else GaveUp))
  }

  function Step(s: Loop, e: Event): Loop {
    match e
    case SetsUrl(url) =>
      s.(f := s.f.(tunnelUrl := url), kickers := if s.f.tunnelUrl != url then s.kickers + 1 else s.kickers)
    case PushesToken => s.(f := s.f.(authBlocked := false), kickers := s.kickers + 1)
    case Kicks => if s.kickers == 0 then s else s.(slot := true, kickers := s.kickers - 1)
    case Wakes(timer) =>
      if !s.pc.Parked? then s
      else if timer then s.(pc := Ready)
      else if s.slot then s.(pc := Ready, slot := false)
      else s
    case Reads(capable) =>
      if !s.pc.Ready? then s
      else
        s.(lastRead := s.f.tunnelUrl,
           pc := match Decide(s.f, capable)
                 case GoIdle => Parked(Idled)
                 case Withdraw => Withdrawing
                 case Register => Naming(s.f.tunnelUrl)
                 case Beat => Requesting(true, s.f.tunnelUrl, s.f.deviceId))
    case Withdraws => if s.pc.Withdrawing? then s.(f := Unregistered(s.f), pc := Parked(Withdrew)) else s
    case Names(drawn) => if s.pc.Naming? then Named(s, drawn) else s
    case Answers(answer) => if s.pc.Requesting? then Answered(s, answer) else s
    case Blocks =>
      if s.pc.Blocking? then s.(f := s.f.(authBlocked := true), pc := if s.pc.beat then Dropping else Parked(GaveUp)) else s
    case Drops => if s.pc.Dropping? then s.(f := Unregistered(s.f), pc := Parked(GaveUp)) else s
  }

  function Play(s: Loop, events: seq<Event>): Loop {
    if events == [] then s else Step(Play(s, events[..|events| - 1]), events[|events| - 1])
  }

  // ----- the invariant -----

  ghost predicate Inv(s: Loop) {
    && FieldsOk(s.f)
    && (!s.pc.Ready? && s.f.tunnelUrl != s.lastRead ==> s.slot || s.kickers > 0)
    && (s.pc.Naming? || s.pc.Requesting? ==> s.pc.url == s.lastRead && s.pc.url != "")
    && (s.pc.Requesting? && s.pc.beat ==> s.f.registered && s.f.registeredUrl == s.lastRead)
    && (s.pc.Parked? && (s.pc.result.RegisteredOk? || s.pc.result.BeatOk?) ==> s.f.registered && s.f.registeredUrl == s.lastRead)
    && (s.pc.Parked? && s.pc.result.Withdrew? ==> !s.f.registered)
  }

  lemma AnswerKeeps(s: Loop, answer: Answer)
    requires Inv(s) && s.pc.Requesting?
    ensures Inv(Answered(s, answer))
  {
  }

  lemma StepKeeps(s: Loop, e: Event)
    requires Inv(s)
    ensures Inv(Step(s, e))
  {
    match e
    case Answers(answer) =>
      if s.pc.Requesting? {
        AnswerKeeps(s, answer);
      }
    case Reads(capable) => ReadKeeps(s, capable);
    case Names(drawn) => NameKeeps(s, drawn);
    case SetsUrl(url) => CallKeeps(s, e);
    case PushesToken => CallKeeps(s, e);
    case Kicks => CallKeeps(s, e);
    case _ => RestKeeps(s, e);
  }

  lemma ReadKeeps(s: Loop, capable: bool)
    requires Inv(s)
    ensures Inv(Step(s, Reads(capable)))
  {
  }

  lemma NameKeeps(s: Loop, drawn: Option<string>)
    requires Inv(s)
    ensures Inv(Step(s, Names(drawn)))
  {
  }

  lemma CallKeeps(s: Loop, e: Event)
    requires Inv(s) && (e.SetsUrl? || e.PushesToken? || e.Kicks?)
    ensures Inv(Step(s, e))
  {
  }

  lemma RestKeeps(s: Loop, e: Event)
    requires Inv(s) && (e.Wakes? || e.Withdraws? || e.Blocks? || e.Drops?)
    ensures Inv(Step(s, e))
  {
  }

  lemma {:induction false} PlayKeeps(s: Loop, events: seq<Event>)
    requires Inv(s)
    ensures Inv(Play(s, events))
  {
    if events != [] {
      PlayKeeps(s, events[..|events| - 1]);
      StepKeeps(Play(s, events[..|events| - 1]), events[|events| - 1]);
    }
  }

  /** No URL change is lost: if the loop is parked on an old URL, its wake-up is in the slot or
      a caller is about to put it there. */
  lemma {:induction false} NoLostWakeup(events: seq<Event>)
    ensures
      var s := Play(START, events);
      s.pc.Parked? && s.f.tunnelUrl != s.lastRead ==> s.slot || s.kickers > 0
  {
    PlayKeeps(START, events);
  }

  /** A parked loop wakes at its timer, and at a token in the slot, which it takes. */
  lemma ParkedLoopWakes(s: Loop)
    requires s.pc.Parked?
    ensures Step(s, Wakes(true)) == s.(pc := Ready)
    ensures Step(s, Wakes(false)) == if s.slot then s.(pc := Ready, slot := false) else s
  {
  }

  /** And the wake-up works: at most one kick of a caller on its way, and the loop reads the URL it
      has not read yet, without its timer. */
  lemma {:induction false} OldUrlIsReread(events: seq<Event>, capable: bool)
    requires
      var s := Play(START, events);
      s.pc.Parked? && s.f.tunnelUrl != s.lastRead
    ensures
      var s := Play(START, events);
      var kicked := if s.slot then s else Step(s, Kicks);
      var read := Step(Step(kicked, Wakes(false)), Reads(capable));
      read.lastRead == s.f.tunnelUrl == read.f.tunnelUrl
  {
    PlayKeeps(START, events);
    var s := Play(START, events);
    ParkedLoopWakes(if s.slot then s else Step(s, Kicks));
  }

  /** So when everything is quiet after a success, what is registered is the current URL. */
  lemma {:induction false} QuietMeansCurrent(events: seq<Event>)
    ensures
      var s := Play(START, events);
      s.pc.Parked? && (s.pc.result.RegisteredOk? || s.pc.result.BeatOk?) && !s.slot && s.kickers == 0 ==>
        s.f.registered && s.f.registeredUrl == s.f.tunnelUrl
  {
    PlayKeeps(START, events);
  }

  /** The loop parks on a success exactly after an answer that was one, to the request it made, and on
      giving up after any other answer once that is dealt with. */
  lemma ParkedOnSuccessIff(s: Loop, answer: Answer)
    requires s.pc.Requesting?
    ensures
      var t := Step(s, Answers(answer));
      && (answer.Ok? <==> t.pc == Parked(if s.pc.beat then BeatOk else RegisteredOk))
      && (!answer.Ok? <==> t.pc == Parked(GaveUp) || t.pc == Blocking(s.pc.beat))
  {
  }

  /** In every reachable state a URL is recorded exactly while registered, and a subscription
      refusal excludes being registered. */
  lemma {:induction false} FieldsAgree(events: seq<Event>)
    ensures FieldsOk(Play(START, events).f)
  {
    PlayKeeps(START, events);
  }

  // ----- without interference -----

  /** The answer that the loop gets in this world, whichever request it makes. */
  function AnswerIn(f: Fields, capable: bool, w: World): Answer {
    if Decide(f, capable) == Beat then BeatAnswer(w)
    else
      var id := DeviceIdFor(f, w);
      Exchanged(f.tunnelUrl, if id.Some? then id.value else "", w).1
  }

  /** The first half of a turn, up to a request being made. */
  function Asked(s: Loop, capable: bool, w: World): Loop {
    Step(Step(Step(s, Reads(capable)), Withdraws), Names(w.newDeviceId))
  }

  /** The second half: the answer and what follows from it. */
  function Done(s: Loop, answer: Answer): Loop {
    Step(Step(Step(s, Answers(answer)), Blocks), Drops)
  }

  lemma DoneFields(s: Loop, answer: Answer)
    requires s.pc.Requesting? || s.pc.Parked?
    ensures Done(s, answer).pc.Parked?
    ensures Done(s, answer).f ==
      if s.pc.Parked? then s.f
      else if s.pc.beat then AfterHeartbeat(s.f, answer)
      else AfterRegister(s.f, s.pc.url, s.pc.deviceId, answer)
  {
  }

  lemma AskedState(s: Loop, capable: bool, w: World)
    requires s.pc.Ready?
    ensures
      var asked, id := Asked(s, capable, w), DeviceIdFor(s.f, w);
      match Decide(s.f, capable)
      case GoIdle => asked.pc.Parked? && asked.f == s.f
      case Withdraw => asked.pc.Parked? && asked.f == Unregistered(s.f)
      case Beat => asked.pc == Requesting(true, s.f.tunnelUrl, s.f.deviceId) && asked.f == s.f
      case Register =>
        if id.None? then asked.pc.Parked? && asked.f == s.f
        else asked.pc == Requesting(false, s.f.tunnelUrl, id.value) && asked.f == s.f.(deviceId := id.value)
  {
  }

  /** With nothing in between, the steps of a turn leave the fields that the method leaves, the
      device id of a failed registration included, and the loop parks. */
  lemma UninterruptedTurn(s: Loop, capable: bool, w: World)
    requires s.pc.Ready?
    ensures
      var t := Done(Asked(s, capable, w), AnswerIn(s.f, capable, w));
      t.f == Stepped(s.f, capable, w) && t.pc.Parked?
  {
    AskedState(s, capable, w);
    DoneFields(Asked(s, capable, w), AnswerIn(s.f, capable, w));
  }

  // ----- a token pushed during a failing request -----

  /** Blocked, or about to be. */
  predicate BlockComes(s: Loop) {
    s.f.authBlocked || s.pc.Blocking?
  }

  /** The event at i answers a request with 401, or there was no token to send it with. */
  predicate RefusedAt(s: Loop, events: seq<Event>, i: nat) {
    i < |events| && Play(s, events[..i]).pc.Requesting? && events[i].Answers? && Unauthorized(events[i].answer)
  }

  ghost predicate Refused(s: Loop, events: seq<Event>) {
    exists i: nat :: RefusedAt(s, events, i)
  }

  lemma {:induction false} RefusedSplit(s: Loop, events: seq<Event>)
    requires events != []
    ensures Refused(s, events) <==> Refused(s, events[..|events| - 1]) || RefusedAt(s, events, |events| - 1)
  {
    var n := |events| - 1;
    forall i: nat | i < n
      ensures RefusedAt(s, events, i) <==> RefusedAt(s, events[..n], i)
    {
      assert events[..n][..i] == events[..i];
    }
    if Refused(s, events[..n]) {
      var i: nat :| RefusedAt(s, events[..n], i);
      assert RefusedAt(s, events, i);
    }
  }

  lemma BlockStep(s: Loop, e: Event)
    requires e != PushesToken
    ensures BlockComes(Step(s, e)) <==> BlockComes(s) || (s.pc.Requesting? && e.Answers? && Unauthorized(e.answer))
  {
  }

  /** Over any stretch without a push: the block comes exactly if it was coming, or some request is
      refused. */
  lemma {:induction false} BlockComesIffRefused(s: Loop, events: seq<Event>)
    requires PushesToken !in events
    ensures BlockComes(Play(s, events)) <==> BlockComes(s) || Refused(s, events)
  {
    if events != [] {
      var n := |events| - 1;
      assert forall e :: e in events[..n] ==> e in events;
      assert events[n] in events;
      BlockComesIffRefused(s, events[..n]);
      BlockStep(Play(s, events[..n]), events[n]);
      RefusedSplit(s, events);
    } else {
      assert !Refused(s, events);
    }
  }

  /** With no second push, the loop finds itself blocked at a later read exactly if a block was on its
      way when the token was pushed, or some request is refused meanwhile. */
  lemma {:induction false} PushIsLostIff(s: Loop, events: seq<Event>)
    requires PushesToken !in events && Play(Step(s, PushesToken), events).pc.Ready?
    ensures Play(Step(s, PushesToken), events).f.authBlocked <==> s.pc.Blocking? || Refused(Step(s, PushesToken), events)
  {
    BlockComesIffRefused(Step(s, PushesToken), events);
  }

  /** No event of these is a turn's first read. */
  ghost predicate NoRead(s: Loop, events: seq<Event>) {
    forall i: nat :: i < |events| && events[i].Reads? ==> !Play(s, events[..i]).pc.Ready?
  }

  /** Until the loop reads again it makes no request but the one it was on. */
  lemma {:induction false} OnlyTheRequestUnderWay(s: Loop, events: seq<Event>)
    requires NoRead(s, events) && !s.pc.Naming? && !s.pc.Requesting?
    ensures !Refused(s, events) && !Play(s, events).pc.Naming? && !Play(s, events).pc.Requesting?
  {
    if events == [] {
      assert !Refused(s, events);
    } else {
      NoReadFront(s, events);
      OnlyTheRequestUnderWay(s, events[..|events| - 1]);
      RefusedSplit(s, events);
    }
  }

  /** At the next read after a push, no other push between: blocked exactly if the loop was at
      blocking already, or the attempt under way at the push is refused. */
  lemma {:induction false} PushIsLostAtNextReadIff(s: Loop, events: seq<Event>)
    requires PushesToken !in events && NoRead(Step(s, PushesToken), events)
    requires Play(Step(s, PushesToken), events).pc.Ready?
    ensures Play(Step(s, PushesToken), events).f.authBlocked <==>
      s.pc.Blocking? || ((s.pc.Naming? || s.pc.Requesting?) && Refused(Step(s, PushesToken), events))
  {
    PushIsLostIff(s, events);
    if !s.pc.Naming? && !s.pc.Requesting? {
      OnlyTheRequestUnderWay(Step(s, PushesToken), events);
    }
  }

  // ----- what an answer leads to -----

  /** Done with its turn: nothing but a read can make a request now. */
  predicate Rests(pc: Pc) {
    pc.Parked? || pc.Ready?
  }

  /** What a turn leaves and only the next one changes. */
  predicate SameStanding(x: Fields, y: Fields) {
    && x.registered == y.registered && x.registeredUrl == y.registeredUrl && x.deviceId == y.deviceId
    && x.subscriptionBlocked == y.subscriptionBlocked
  }

  lemma StandingStep(s: Loop, e: Event)
    requires Rests(s.pc) && (e.Reads? ==> !s.pc.Ready?)
    ensures Rests(Step(s, e).pc) && SameStanding(s.f, Step(s, e).f)
  {
  }

  lemma {:induction false} StandingWaits(s: Loop, events: seq<Event>)
    requires Rests(s.pc) && NoRead(s, events)
    ensures Rests(Play(s, events).pc) && SameStanding(s.f, Play(s, events).f)
  {
    if events != [] {
      NoReadFront(s, events);
      StandingWaits(s, events[..|events| - 1]);
      StandingStep(Play(s, events[..|events| - 1]), events[|events| - 1]);
    }
  }

  lemma {:induction false} NoReadFront(s: Loop, events: seq<Event>)
    requires events != [] && NoRead(s, events)
    ensures NoRead(s, events[..|events| - 1])
    ensures events[|events| - 1].Reads? ==> !Play(s, events[..|events| - 1]).pc.Ready?
  {
    var n := |events| - 1;
    forall i: nat | i < n && events[..n][i].Reads?
      ensures !Play(s, events[..n][..i]).pc.Ready?
    {
      assert events[..n][..i] == events[..i];
    }
  }

  /** On its way to the end of the turn of a refused heartbeat. */
  predicate BlockingBeat(s: Loop) {
    s.pc == Blocking(true) || s.pc.Dropping?
  }

  /** A refused heartbeat ends unregistered, whatever comes between. */
  lemma {:induction false} RefusedBeatEnds(s: Loop, events: seq<Event>)
    requires NoRead(s, events) && BlockingBeat(s)
    ensures BlockingBeat(Play(s, events)) ||
      (Rests(Play(s, events).pc) && !Play(s, events).f.registered && Play(s, events).f.registeredUrl == "")
  {
    if events != [] {
      NoReadFront(s, events);
      RefusedBeatEnds(s, events[..|events| - 1]);
    }
  }

  lemma RefusedStep(s: Loop, e: Event)
    requires s.pc == Blocking(false)
    ensures Step(s, e).pc == Blocking(false) || Rests(Step(s, e).pc)
    ensures SameStanding(s.f, Step(s, e).f)
  {
  }

  /** A refused registration ends with the registration there was. */
  lemma {:induction false} RefusedRegistrationEnds(s: Loop, events: seq<Event>)
    requires NoRead(s, events) && (s.pc == Blocking(false) || Rests(s.pc))
    ensures Play(s, events).pc == Blocking(false) || Rests(Play(s, events).pc)
    ensures SameStanding(s.f, Play(s, events).f)
  {
    if events != [] {
      NoReadFront(s, events);
      RefusedRegistrationEnds(s, events[..|events| - 1]);
      var before, e := Play(s, events[..|events| - 1]), events[|events| - 1];
      if before.pc == Blocking(false) {
        RefusedStep(before, e);
      } else {
        StandingStep(before, e);
      }
    }
  }

  /** The loop is about to read, with a URL set and something to offer. */
  predicate CanAct(s: Loop) {
    s.pc.Ready? && s.f.tunnelUrl != ""
  }

  /** It registers: after the device id its request is a registration of the URL it read. */
  ghost predicate Registers(s: Loop) {
    var t := Step(s, Reads(true));
    t.pc == Naming(s.f.tunnelUrl) && forall id :: AsksFor(Step(t, Names(Some(id))), s.f.tunnelUrl)
  }

  predicate AsksFor(s: Loop, url: string) {
    s.pc.Requesting? && !s.pc.beat && s.pc.url == url
  }

  predicate BeatsAgain(s: Loop) {
    var t := Step(s, Reads(true));
    t.pc.Requesting? && t.pc.beat && t.pc.deviceId == s.f.deviceId
  }

  predicate StaysIdle(s: Loop) {
    Step(s, Reads(true)).pc == Parked(Idled)
  }

  /** What the answer to a heartbeat leads to, at the next read, whatever happens in between: a
      success or an unexplained failure to another heartbeat, if the URL is the one registered; a 404
      or a 402 to a registration; a 401 or a missing token to nothing until a token is pushed, and
      then to a registration. */
  lemma {:induction false} AfterABeat(before: seq<Event>, answer: Answer, events: seq<Event>)
    requires Play(START, before).pc.Requesting? && Play(START, before).pc.beat
    requires NoRead(Step(Play(START, before), Answers(answer)), events)
    ensures
      var s := Play(START, before);
      var u := Play(Step(s, Answers(answer)), events);
      CanAct(u) ==>
        if answer.NoToken? || answer == Status(401) then
          if u.f.authBlocked then StaysIdle(u) else Registers(u)
        else if answer == Status(404) || answer == Status(402) then
          (answer == Status(402) ==> u.f.subscriptionBlocked) && if u.f.authBlocked then StaysIdle(u) else Registers(u)
        else if u.f.authBlocked then StaysIdle(u)
        else if u.f.tunnelUrl == s.pc.url then BeatsAgain(u)
        else Registers(u)
    ensures
      var s := Play(START, before);
      var u := Play(Step(s, Answers(answer)), events);
      CanAct(u) && (answer.NoToken? || answer == Status(401)) && PushesToken !in events ==> u.f.authBlocked
  {
    PlayKeeps(START, before);
    var s := Play(START, before);
    var t := Step(s, Answers(answer));
    if answer.NoToken? || answer == Status(401) {
      RefusedBeatEnds(t, events);
      if PushesToken !in events {
        BlockComesIffRefused(t, events);
      }
    } else {
      StandingWaits(t, events);
    }
  }

  /** What the answer to a registration leads to: a success to heartbeats under the id that the
      control plane gave, as long as the URL stays; a refusal for want of a token to nothing until
      one is pushed; any other failure to another registration, unless the URL is again the one that
      is registered. */
  lemma {:induction false} AfterARegistration(before: seq<Event>, answer: Answer, events: seq<Event>)
    requires Play(START, before).pc.Requesting? && !Play(START, before).pc.beat
    requires NoRead(Step(Play(START, before), Answers(answer)), events)
    ensures
      var s := Play(START, before);
      var u := Play(Step(s, Answers(answer)), events);
      CanAct(u) ==>
        if u.f.authBlocked then StaysIdle(u)
        else if answer.Ok? then
          && u.f.deviceId == (if answer.deviceId != "" then answer.deviceId else s.pc.deviceId)
          && if u.f.tunnelUrl == s.pc.url then BeatsAgain(u) else Registers(u)
        else if answer == Status(402) then u.f.subscriptionBlocked && Registers(u)
        else if s.f.registered && u.f.tunnelUrl == s.f.registeredUrl then BeatsAgain(u)
        else Registers(u)
    ensures
      var s := Play(START, before);
      var u := Play(Step(s, Answers(answer)), events);
      CanAct(u) && (answer.NoToken? || answer == Status(401)) && PushesToken !in events ==> u.f.authBlocked
  {
    PlayKeeps(START, before);
    var s := Play(START, before);
    var t := Step(s, Answers(answer));
    if answer.NoToken? || answer == Status(401) {
      RefusedRegistrationEnds(t, events);
      if PushesToken !in events {
        BlockComesIffRefused(t, events);
      }
    } else {
      StandingWaits(t, events);
    }
    assert FieldsOk(s.f);
  }

  /** A loop that finds no URL, or nothing to offer, while registered has withdrawn by its next read. */
  lemma {:induction false} NoUrlWithdraws(s: Loop, capable: bool, events: seq<Event>)
    requires s.pc.Ready? && s.f.registered && (s.f.tunnelUrl == "" || !capable)
    requires NoRead(Step(s, Reads(capable)), events)
    ensures
      var u := Play(Step(s, Reads(capable)), events);
      u.pc.Ready? ==> !u.f.registered && u.f.registeredUrl == ""
  {
    WithdrawingEnds(Step(s, Reads(capable)), events);
  }

  lemma {:induction false} WithdrawingEnds(s: Loop, events: seq<Event>)
    requires s.pc.Withdrawing? && NoRead(s, events)
    ensures
      var u := Play(s, events);
      u.pc.Withdrawing? || (Rests(u.pc) && !u.f.registered && u.f.registeredUrl == "")
  {
    if events != [] {
      NoReadFront(s, events);
      WithdrawingEnds(s, events[..|events| - 1]);
    }
  }

  /** Not in the middle of a registration or a heartbeat. */
  predicate Quiet(pc: Pc) {
    !pc.Naming? && !pc.Requesting? && !pc.Blocking?
  }

  /** While blocked and not pushed again, the loop sends nothing, however often it is woken. */
  lemma {:induction false} BlockedSendsNothing(s: Loop, events: seq<Event>)
    requires s.f.authBlocked && Quiet(s.pc) && PushesToken !in events
    ensures Play(s, events).f.authBlocked && Quiet(Play(s, events).pc)
  {
    if events != [] {
      var n := |events| - 1;
      assert forall e :: e in events[..n] ==> e in events;
      BlockedSendsNothing(s, events[..n]);
    }
  }

  lemma {:induction false} PlayThen(s: Loop, events: seq<Event>, e: Event)
    ensures Play(s, events + [e]) == Step(Play(s, events), e)
  {
    assert (events + [e])[..|events|] == events;
  }

  /** A push while a registration is failing is overwritten: the loop is woken by its kick, reads
      that it is blocked, and from then on sends nothing until another push. */
  lemma {:induction false} PushDuringFailingRequestIsLost(s: Loop, later: seq<Event>)
    requires s.pc.Requesting? && !s.pc.beat && s.f.tunnelUrl != "" && s.kickers == 0
    requires PushesToken !in later
    ensures
      var woken := Play(s, LostPush());
      && woken.pc == Parked(Idled) && woken.f.authBlocked && !woken.slot && woken.kickers == 0
      && Play(woken, later).f.authBlocked && Quiet(Play(woken, later).pc)
  {
    PlayThen(s, [], PushesToken);
    PlayThen(s, [] + [PushesToken], Kicks);
    PlayThen(s, [] + [PushesToken] + [Kicks], Answers(NoToken));
    PlayThen(s, [] + [PushesToken] + [Kicks] + [Answers(NoToken)], Blocks);
    PlayThen(s, [] + [PushesToken] + [Kicks] + [Answers(NoToken)] + [Blocks], Wakes(false));
    PlayThen(s, [] + [PushesToken] + [Kicks] + [Answers(NoToken)] + [Blocks] + [Wakes(false)], Reads(true));
    BlockedSendsNothing(Play(s, LostPush()), later);
  }

  function LostPush(): seq<Event> {
    [] + [PushesToken] + [Kicks] + [Answers(NoToken)] + [Blocks] + [Wakes(false)] + [Reads(true)]
  }

  function FirstRequest(url: string, id: string): seq<Event> {
    [] + [SetsUrl(url)] + [Kicks] + [Reads(true)] + [Names(Some(id))]
  }

  lemma {:induction false} PlayAppend(s: Loop, a: seq<Event>, b: seq<Event>)
    ensures Play(s, a + b) == Play(Play(s, a), b)
  {
    if b == [] {
      assert a + b == a;
    } else {
      assert (a + b)[..|a + b| - 1] == a + b[..|b| - 1];
      PlayAppend(s, a, b[..|b| - 1]);
    }
  }

  /** The same from the start: a URL is set, the first registration is under way, a token is
      pushed, the registration fails for want of one, and nothing is sent any more. */
  lemma {:induction false} LostPushRun(url: string, id: string, later: seq<Event>)
    requires url != "" && PushesToken !in later
    ensures
      var t := Play(START, FirstRequest(url, id) + LostPush());
      && t.pc == Parked(Idled) && t.f.authBlocked && t.f.tunnelUrl == url && !t.f.registered
      && Play(t, later).f.authBlocked && Quiet(Play(t, later).pc)
  {
    PlayThen(START, [], SetsUrl(url));
    PlayThen(START, [] + [SetsUrl(url)], Kicks);
    PlayThen(START, [] + [SetsUrl(url)] + [Kicks], Reads(true));
    PlayThen(START, [] + [SetsUrl(url)] + [Kicks] + [Reads(true)], Names(Some(id)));
    var s := Play(START, FirstRequest(url, id));
    assert s == Loop(NEW_FIELDS.(tunnelUrl := url, deviceId := id), true, 0, Requesting(false, url, id), url);
    PlayAppend(START, FirstRequest(url, id), LostPush());
    PushDuringFailingRequestIsLost(s, later);
    LostPushFields(s);
  }

  lemma LostPushFields(s: Loop)
    requires s.pc.Requesting? && !s.pc.beat && s.kickers == 0 && !s.f.registered
    ensures Play(s, LostPush()).f.tunnelUrl == s.f.tunnelUrl && !Play(s, LostPush()).f.registered
  {
    PlayThen(s, [], PushesToken);
    PlayThen(s, [] + [PushesToken], Kicks);
    PlayThen(s, [] + [PushesToken] + [Kicks], Answers(NoToken));
    PlayThen(s, [] + [PushesToken] + [Kicks] + [Answers(NoToken)], Blocks);
    PlayThen(s, [] + [PushesToken] + [Kicks] + [Answers(NoToken)] + [Blocks], Wakes(false));
    PlayThen(s, [] + [PushesToken] + [Kicks] + [Answers(NoToken)] + [Blocks] + [Wakes(false)], Reads(true));
  }
}
