/** The live log endpoint (internal/adminapi/logs.go): subscribe, then read the backlog, then
    send what arrives and is newer than anything sent, with keepalives in between. */
module LogStream {
  import opened LogRecorder
  import Sse
  import Text

  // ----- what is sent -----

  function Emitted(last: nat, records: seq<Record>): seq<Record>
    decreases |records|
  {
    if records == [] then []
    else if records[0].seqNo <= last then Emitted(last, records[1..])
    else [records[0]] + Emitted(records[0].seqNo, records[1..])
  }

  function LastAfter(last: nat, records: seq<Record>): nat
    decreases |records|
  {
    if records == [] then last
    else LastAfter(if records[0].seqNo <= last then last else records[0].seqNo, records[1..])
  }

  function LastSeq(backlog: seq<Record>): nat {
    if backlog == [] then 0 else backlog[|backlog| - 1].seqNo
  }

  datatype Event = Live(record: Record) | Tick

  function BacklogPieces(backlog: seq<Record>): seq<Sse.Piece> {
    if backlog == [] then [] else [Sse.Event(backlog[0].seqNo, backlog[0].line)] + BacklogPieces(backlog[1..])
  }

  function LivePieces(last: nat, events: seq<Event>): seq<Sse.Piece>
    decreases |events|
  {
    if events == [] then []
    else
      match events[0]
      case Tick => [Sse.Keepalive] + LivePieces(last, events[1..])
      case Live(record) =>
        if record.seqNo <= last then LivePieces(last, events[1..])
        else [Sse.Event(record.seqNo, record.line)] + LivePieces(record.seqNo, events[1..])
  }

  function Pieces(backlog: seq<Record>, events: seq<Event>): seq<Sse.Piece> {
    BacklogPieces(backlog) + LivePieces(LastSeq(backlog), events)
  }

  lemma PieceFirst(out: string, p: Sse.Piece, rest: seq<Sse.Piece>)
    ensures out + Sse.StreamText([p] + rest) == (out + Sse.PieceText(p)) + Sse.StreamText(rest)
  {
    assert ([p] + rest)[1..] == rest;
    Text.Regroup(out, Sse.PieceText(p), Sse.StreamText(rest));
  }

  lemma PartOfPiece(out: string, sent: string, p: Sse.Piece, rest: seq<Sse.Piece>)
    requires sent <= Sse.PieceText(p)
    ensures out + sent <= out + Sse.StreamText([p] + rest)
  {
    PieceFirst(out, p, rest);
    var whole := out + Sse.StreamText([p] + rest);
    assert whole[..|out| + |sent|] == out + sent;
  }

  /** One record goes out, before the pieces that are to follow it. */
  method SendRecord(out: string, record: Record, ghost rest: seq<Sse.Piece>, attempt: nat, writes: nat -> bool)
    returns (after: string, next: nat, ok: bool)
    ensures after <= out + Sse.StreamText([Sse.Event(record.seqNo, record.line)] + rest)
    ensures ok ==> after + Sse.StreamText(rest) == out + Sse.StreamText([Sse.Event(record.seqNo, record.line)] + rest)
    ensures (forall k :: writes(k)) ==> ok
  {
    var sent;
    sent, next, ok := Sse.WriteEvent(record.seqNo, record.line, attempt, writes);
    PartOfPiece(out, sent, Sse.Event(record.seqNo, record.line), rest);
    PieceFirst(out, Sse.Event(record.seqNo, record.line), rest);
    after := out + sent;
  }

  /** The handler: everything it means to send, or a beginning of it if a write fails. */
  method Serve(backlog: seq<Record>, events: seq<Event>, writes: nat -> bool) returns (out: string)
    ensures out <= Sse.StreamText(Pieces(backlog, events))
    ensures (forall k :: writes(k)) ==> out == Sse.StreamText(Pieces(backlog, events))
  {
    var next, ok, last;
    out, next, ok, last := SendBacklog(backlog, LivePieces(LastSeq(backlog), events), writes);
    if ok {
      out := SendLive(last, events, out, next, writes);
    }
  }

  lemma BacklogFirst(backlog: seq<Record>, i: nat, live: seq<Sse.Piece>)
    requires i < |backlog|
    ensures BacklogPieces(backlog[i..]) + live ==
      [Sse.Event(backlog[i].seqNo, backlog[i].line)] + (BacklogPieces(backlog[i + 1..]) + live)
  {
    assert backlog[i..][1..] == backlog[i + 1..];
  }

  method SendBacklog(backlog: seq<Record>, ghost live: seq<Sse.Piece>, writes: nat -> bool)
    returns (out: string, next: nat, ok: bool, last: nat)
    ensures out <= Sse.StreamText(BacklogPieces(backlog) + live)
    ensures ok ==> last == LastSeq(backlog) && out + Sse.StreamText(live) == Sse.StreamText(BacklogPieces(backlog) + live)
    ensures (forall k :: writes(k)) ==> ok
  {
    ghost var whole := Sse.StreamText(BacklogPieces(backlog) + live);
    out, next, ok, last := "", 0, true, 0;
    assert backlog[0..] == backlog;
    var i := 0;
    while i < |backlog|
      invariant i <= |backlog| && last == (if i == 0 then 0 else backlog[i - 1].seqNo) && ok
      invariant whole == out + Sse.StreamText(BacklogPieces(backlog[i..]) + live)
    {
      BacklogFirst(backlog, i, live);
      last := backlog[i].seqNo;
      out, next, ok := SendRecord(out, backlog[i], BacklogPieces(backlog[i + 1..]) + live, next, writes);
      if !ok {
        return;
      }
      i := i + 1;
    }
    assert BacklogPieces(backlog[|backlog|..]) + live == live;
  }

  /** One round of the handler's loop. */
  method SendNext(last0: nat, event: Event, ghost more: seq<Event>, out0: string, attempt: nat, writes: nat -> bool)
    returns (last: nat, out: string, next: nat, ok: bool)
    ensures out <= out0 + Sse.StreamText(LivePieces(last0, [event] + more))
    ensures ok ==> out + Sse.StreamText(LivePieces(last, more)) == out0 + Sse.StreamText(LivePieces(last0, [event] + more))
    ensures (forall k :: writes(k)) ==> ok
  {
    last, out, next, ok := last0, out0, attempt, true;
    assert ([event] + more)[1..] == more;
    match event {
      case Live(record) =>
        if record.seqNo > last {
          last := record.seqNo;
          out, next, ok := SendRecord(out, record, LivePieces(last, more), next, writes);
        }
      case Tick =>
        PieceFirst(out, Sse.Keepalive, LivePieces(last, more));
        ok := writes(next);
        if ok {
          out, next := out + Sse.KEEPALIVE, next + 1;
        }
    }
  }

  method SendLive(last0: nat, events: seq<Event>, before: string, next0: nat, writes: nat -> bool) returns (out: string)
    ensures out <= before + Sse.StreamText(LivePieces(last0, events))
    ensures (forall k :: writes(k)) ==> out == before + Sse.StreamText(LivePieces(last0, events))
  {
    ghost var whole := before + Sse.StreamText(LivePieces(last0, events));
    var last, next, ok := last0, next0, true;
    out := before;
    assert events[0..] == events;
    var i := 0;
    while i < |events|
      invariant i <= |events|
      invariant whole == out + Sse.StreamText(LivePieces(last, events[i..]))
    {
      assert events[i..] == [events[i]] + events[i + 1..];
      last, out, next, ok := SendNext(last, events[i], events[i + 1..], out, next, writes);
      if !ok {
        return;
      }
      i := i + 1;
    }
  }

  // ----- ids only grow -----

  ghost predicate Increasing(records: seq<Record>, above: nat) {
    && (forall i :: 0 <= i < |records| ==> records[i].seqNo > above)
    && (forall i, j :: 0 <= i < j < |records| ==> records[i].seqNo < records[j].seqNo)
  }

  /** Whatever arrives, repeated or out of order, the ids sent are strictly increasing. */
  lemma {:induction false} EmittedIncreases(last: nat, records: seq<Record>)
    ensures Increasing(Emitted(last, records), last)
    decreases |records|
  {
    if records != [] {
      if records[0].seqNo <= last {
        EmittedIncreases(last, records[1..]);
      } else {
        EmittedIncreases(records[0].seqNo, records[1..]);
      }
    }
  }

  /** The next record is sent exactly if it is newer than everything before it. */
  lemma {:induction false} EmittedThen(last: nat, records: seq<Record>, r: Record)
    ensures Emitted(last, records + [r]) == Emitted(last, records) + if r.seqNo > LastAfter(last, records) then [r] else []
    ensures LastAfter(last, records + [r]) ==
      if r.seqNo > LastAfter(last, records) then r.seqNo else LastAfter(last, records)
    decreases |records|
  {
    if records == [] {
      assert [r][1..] == [];
    } else {
      assert (records + [r])[1..] == records[1..] + [r];
      EmittedThen(if records[0].seqNo <= last then last else records[0].seqNo, records[1..], r);
    }
  }

  // ----- the handoff -----

  datatype Step = Writes(line: string) | Subscribes(capacity: nat) | ReadsBacklog | Receives

  /** The log, and one console's view of it; `from` and `seen` are the log's length when it
      subscribed and when it read the backlog. */
  datatype Console = Console(log: seq<Record>, ring: nat, subscribed: bool, feed: Feed, from: nat, read: bool, seen: nat)

  function Idle(ring: nat): Console {
    Console([], ring, false, Opened(0), 0, false, 0)
  }

  function Advance(c: Console, s: Step): Console {
    match s
    case Writes(line) =>
      if line == "" then c
      else
        var record := Record(|c.log| + 1, line);
        c.(log := c.log + [record], feed := if c.subscribed then Offer(c.feed, record) else c.feed)
    case Subscribes(capacity) =>
      if c.subscribed then c else c.(subscribed := true, feed := Opened(capacity), from := |c.log|)
    case ReadsBacklog => if c.subscribed && !c.read then c.(read := true, seen := |c.log|) else c
    case Receives => if c.read then c.(feed := Taken(c.feed)) else c
  }

  function Play(ring: nat, steps: seq<Step>): Console {
    if steps == [] then Idle(ring) else Advance(Play(ring, steps[..|steps| - 1]), steps[|steps| - 1])
  }

  function Received(c: Console): seq<Record>
    requires c.feed.taken <= |c.feed.items|
  {
    AsRecords(c.feed.items[..c.feed.taken])
  }

  function Backlog(c: Console): seq<Record>
    requires c.seen <= |c.log|
  {
    Retained(c.log[..c.seen], c.ring)
  }

  function SentSoFar(c: Console): seq<Record>
    requires c.seen <= |c.log| && c.feed.taken <= |c.feed.items|
  {
    Backlog(c) + Emitted(LastSeq(Backlog(c)), Received(c))
  }

  ghost predicate ConsoleOk(c: Console) {
    && Numbered(c.log) && FeedOk(c.feed) && c.from <= |c.log|
    && (c.read ==> c.subscribed && c.from <= c.seen)
    && (!c.read ==> c.seen == 0)
    && c.seen <= |c.log|
    && (c.subscribed ==> c.feed.offered == c.log[c.from..])
  }

  lemma {:induction false} PlayOk(ring: nat, steps: seq<Step>)
    ensures ConsoleOk(Play(ring, steps)) && Play(ring, steps).ring == ring
  {
    if steps != [] {
      PlayOk(ring, steps[..|steps| - 1]);
      var c := Play(ring, steps[..|steps| - 1]);
      match steps[|steps| - 1]
      case Writes(line) =>
        var record := Record(|c.log| + 1, line);
        if c.subscribed {
          OfferOk(c.feed, record);
          assert (c.log + [record])[c.from..] == c.log[c.from..] + [record];
        }
      case _ =>
    }
  }

  predicate NothingMissed(f: Feed) {
    f.dropped == 0 && forall i :: 0 <= i < |f.items| ==> f.items[i].Real?
  }

  lemma {:induction false} AllRealCovered(items: seq<Item>, i: nat)
    requires i <= |items| && forall k :: 0 <= k < |items| ==> items[k].Real?
    ensures Covered(items[..i]) == i
  {
    if i > 0 {
      AllRealCovered(items, i - 1);
      assert items[..i][..i - 1] == items[..i - 1];
    }
  }

  lemma {:induction false} EmittedTail(log: seq<Record>, from: nat, last: nat, end: nat)
    requires Numbered(log) && from <= last && from <= end <= |log|
    ensures Emitted(last, log[from..end]) == (if end > last then log[last..end] else [])
    decreases end - from
  {
    if from < end {
      assert log[from..end][1..] == log[from + 1..end];
      if from < last {
        EmittedTail(log, from + 1, last, end);
      } else {
        EmittedTail(log, from + 1, from + 1, end);
        assert log[last..end] == [log[last]] + log[last + 1..end];
      }
    }
  }

  lemma LastOfRetained(log: seq<Record>, ring: nat)
    requires Numbered(log) && ring > 0
    ensures LastSeq(Retained(log, ring)) == |log|
  {
  }

  /** What was sent is one contiguous run of the log: from the oldest record retained when the
      backlog was read, up to the last one received, with nothing skipped and nothing repeated. */
  ghost predicate SentIsContiguous(c: Console) {
    var first := if c.seen <= c.ring then 0 else c.seen - c.ring;
    var past := if c.from + c.feed.taken > c.seen then c.from + c.feed.taken else c.seen;
    && c.seen <= |c.log| && c.feed.taken <= |c.feed.items| && past <= |c.log|
    && SentSoFar(c) == c.log[first..past]
  }

  lemma SentSplits(c: Console)
    requires ConsoleOk(c) && c.ring > 0 && c.read && NothingMissed(c.feed)
    ensures
      var end := c.from + c.feed.taken;
      end <= |c.log| && SentSoFar(c) == Retained(c.log[..c.seen], c.ring) + (if end > c.seen then c.log[c.seen..end] else [])
  {
    ReceivedIsLog(c);
    assert LastSeq(Backlog(c)) == c.seen by {
      LastOfRetained(c.log[..c.seen], c.ring);
    }
    EmittedTail(c.log, c.from, c.seen, c.from + c.feed.taken);
  }

  lemma ConsoleContiguous(c: Console)
    requires ConsoleOk(c) && c.ring > 0 && c.read && NothingMissed(c.feed)
    ensures SentIsContiguous(c)
  {
    SentSplits(c);
    Joined(c.log, c.seen, c.ring, c.from + c.feed.taken);
  }

  /** For every interleaving of writes with subscribing, reading the backlog and receiving: as
      long as the queue never filled, the handoff has no gap. */
  lemma {:induction false} HandoffIsGapFree(ring: nat, steps: seq<Step>)
    requires ring > 0
    ensures Play(ring, steps).read && NothingMissed(Play(ring, steps).feed) ==> SentIsContiguous(Play(ring, steps))
  {
    PlayOk(ring, steps);
    if Play(ring, steps).read && NothingMissed(Play(ring, steps).feed) {
      ConsoleContiguous(Play(ring, steps));
    }
  }

  lemma Joined(log: seq<Record>, seen: nat, ring: nat, end: nat)
    requires ring > 0 && seen <= |log| && end <= |log|
    ensures Retained(log[..seen], ring) + (if end > seen then log[seen..end] else []) ==
      log[if seen <= ring then 0 else seen - ring..if end > seen then end else seen]
  {
    var start := if seen <= ring then 0 else seen - ring;
    assert Retained(log[..seen], ring) == log[start..seen];
    if end > seen {
      assert log[start..seen] + log[seen..end] == log[start..end];
    } else {
      assert log[start..seen] + [] == log[start..seen];
    }
  }

  lemma ReceivedIsLog(c: Console)
    requires ConsoleOk(c) && c.read && NothingMissed(c.feed)
    ensures c.from + c.feed.taken <= |c.log| && Received(c) == c.log[c.from..c.from + c.feed.taken]
  {
    AllRealCovered(c.feed.items, |c.feed.items|);
    assert c.feed.items[..|c.feed.items|] == c.feed.items;
    assert |c.feed.offered| == |c.log| - c.from;
    forall i | 0 <= i < c.feed.taken
      ensures Received(c)[i] == c.log[c.from + i]
    {
      AllRealCovered(c.feed.items, i);
      assert PlacedAt(c.feed.items[i], Covered(c.feed.items[..i]), c.feed.offered);
    }
  }

  lemma ConsoleIncreases(c: Console)
    requires ConsoleOk(c) && c.ring > 0
    ensures Increasing(SentSoFar(c), 0)
  {
    var backlog := Backlog(c);
    assert Increasing(backlog, 0);
    EmittedIncreases(LastSeq(backlog), Received(c));
    BothIncrease(backlog, Emitted(LastSeq(backlog), Received(c)));
  }

  /** In every run, drops or not, the ids sent are strictly increasing. */
  lemma {:induction false} SentIdsIncrease(ring: nat, steps: seq<Step>)
    requires ring > 0
    ensures ConsoleOk(Play(ring, steps)) && Increasing(SentSoFar(Play(ring, steps)), 0)
  {
    PlayOk(ring, steps);
    ConsoleIncreases(Play(ring, steps));
  }

  lemma BothIncrease(backlog: seq<Record>, live: seq<Record>)
    requires Increasing(backlog, 0) && Increasing(live, LastSeq(backlog))
    ensures Increasing(backlog + live, 0)
  {
    var all := backlog + live;
    assert forall i :: 0 <= i < |backlog| ==> all[i].seqNo <= LastSeq(backlog);
    forall i, j | 0 <= i < j < |all|
      ensures all[i].seqNo < all[j].seqNo
    {
      if i < |backlog| <= j {
        assert all[j] == live[j - |backlog|];
      } else if i >= |backlog| {
        assert all[i] == live[i - |backlog|] && all[j] == live[j - |backlog|];
      }
    }
    forall i | 0 <= i < |all|
      ensures all[i].seqNo > 0
    {
      if i >= |backlog| {
        assert all[i] == live[i - |backlog|];
      }
    }
  }

  // ----- the borrowed number -----

  function Place(c: Console, i: nat): nat
    requires i <= |c.feed.items|
  {
    c.from + Covered(c.feed.items[..i])
  }

  lemma PlaceNext(c: Console, i: nat)
    requires ConsoleOk(c) && c.subscribed && i < |c.feed.items|
    ensures Place(c, i + 1) > Place(c, i)
    ensures AsRecord(c.feed.items[i]).seqNo == if c.feed.items[i].Real? then Place(c, i) + 1 else Place(c, i + 1) + 1
    ensures c.feed.items[i].Real? ==> Place(c, i + 1) == Place(c, i) + 1
  {
    var items := c.feed.items;
    assert PlacedAt(items[i], Covered(items[..i]), c.feed.offered);
    assert items[..i + 1][..i] == items[..i];
  }

  lemma {:induction false} LastAfterPlace(c: Console, i: nat)
    requires ConsoleOk(c) && c.read && i <= c.feed.taken && c.ring > 0
    ensures
      var floor := if i == 0 then 0 else if c.feed.items[i - 1].Notice? then Place(c, i) + 1 else Place(c, i);
      LastAfter(c.seen, Received(c)[..i]) == if floor > c.seen then floor else c.seen
  {
    if i > 0 {
      LastAfterPlace(c, i - 1);
      PlaceNext(c, i - 1);
      assert Received(c)[..i] == Received(c)[..i - 1] + [Received(c)[i - 1]];
      EmittedThen(c.seen, Received(c)[..i - 1], Received(c)[i - 1]);
    }
  }

  /** A notice carries the number of the record behind it, so that record is taken for one already
      sent.  A received record newer than the backlog is sent exactly unless a notice came just
      before it: after every gap one more record is lost than the notice says. */
  lemma {:induction false} SentUnlessBehindNotice(ring: nat, steps: seq<Step>, i: nat)
    requires ring > 0
    requires
      var c := Play(ring, steps);
      c.read && i < c.feed.taken <= |c.feed.items| && c.feed.items[i].Real? && c.feed.items[i].record.seqNo > c.seen
    ensures
      var c := Play(ring, steps);
      c.feed.items[i].record.seqNo > LastAfter(c.seen, Received(c)[..i]) <==> i == 0 || !c.feed.items[i - 1].Notice?
  {
    PlayOk(ring, steps);
    var c := Play(ring, steps);
    LastAfterPlace(c, i);
    PlaceNext(c, i);
  }

  // ----- how much is never shown -----

  /** How many of the records up to this place the backlog did not have. */
  function Beyond(place: nat, seen: nat): nat {
    if place > seen then place - seen else 0
  }

  /** Live records sent, among the first i items received: those newer than anything sent before. */
  function ShownLive(c: Console, i: nat): nat
    requires i <= c.feed.taken <= |c.feed.items|
  {
    if i == 0 then 0
    else
      var item := c.feed.items[i - 1];
      ShownLive(c, i - 1) + if item.Real? && item.record.seqNo > LastAfter(c.seen, Received(c)[..i - 1]) then 1 else 0
  }

  /** The records that notices announce as dropped, as far as the backlog did not have them. */
  function AnnouncedLive(c: Console, i: nat): nat
    requires i <= |c.feed.items|
  {
    if i == 0 then 0
    else
      var item, place := c.feed.items[i - 1], Place(c, i - 1);
      AnnouncedLive(c, i - 1) + if item.Notice? then Beyond(place + item.count, c.seen) - Beyond(place, c.seen) else 0
  }

  predicate BehindNotice(c: Console, i: nat)
    requires i < |c.feed.items|
  {
    i > 0 && c.feed.items[i - 1].Notice?
  }

  /** The records that come right behind a notice, which borrowed their number. */
  function BehindNotices(c: Console, i: nat): nat
    requires i <= |c.feed.items|
  {
    if i == 0 then 0
    else
      BehindNotices(c, i - 1) +
      if c.feed.items[i - 1].Real? && BehindNotice(c, i - 1) && c.feed.items[i - 1].record.seqNo > c.seen then 1 else 0
  }

  lemma ItemMoves(c: Console, i: nat)
    requires ConsoleOk(c) && c.subscribed && i < |c.feed.items|
    ensures Place(c, i + 1) == Place(c, i) + if c.feed.items[i].Real? then 1 else c.feed.items[i].count
    ensures c.feed.items[i].Real? ==> c.feed.items[i].record.seqNo == Place(c, i) + 1
  {
    PlaceNext(c, i);
    assert c.feed.items[..i + 1][..i] == c.feed.items[..i];
  }

  lemma SentTest(c: Console, i: nat)
    requires ConsoleOk(c) && c.read && c.ring > 0 && i < c.feed.taken && c.feed.items[i].Real?
    ensures
      var seqNo := c.feed.items[i].record.seqNo;
      seqNo > LastAfter(c.seen, Received(c)[..i]) <==> seqNo > c.seen && !BehindNotice(c, i)
  {
    LastAfterPlace(c, i);
    ItemMoves(c, i);
  }

  function Accounted(c: Console, i: nat): nat
    requires i <= c.feed.taken <= |c.feed.items|
  {
    ShownLive(c, i) + AnnouncedLive(c, i) + BehindNotices(c, i)
  }

  lemma RealAccounted(c: Console, i: nat)
    requires ConsoleOk(c) && c.read && c.ring > 0 && i < c.feed.taken && c.feed.items[i].Real?
    ensures
      var seqNo := c.feed.items[i].record.seqNo;
      && ShownLive(c, i + 1) == ShownLive(c, i) + (if seqNo > c.seen && !BehindNotice(c, i) then 1 else 0)
      && BehindNotices(c, i + 1) == BehindNotices(c, i) + (if seqNo > c.seen && BehindNotice(c, i) then 1 else 0)
      && AnnouncedLive(c, i + 1) == AnnouncedLive(c, i)
  {
    SentTest(c, i);
  }

  lemma NoticeAccounted(c: Console, i: nat)
    requires i < c.feed.taken <= |c.feed.items| && c.feed.items[i].Notice?
    ensures ShownLive(c, i + 1) == ShownLive(c, i) && BehindNotices(c, i + 1) == BehindNotices(c, i)
    ensures AnnouncedLive(c, i + 1) - AnnouncedLive(c, i) ==
      Beyond(Place(c, i) + c.feed.items[i].count, c.seen) - Beyond(Place(c, i), c.seen)
  {
  }

  lemma ItemAccounted(c: Console, i: nat)
    requires ConsoleOk(c) && c.read && c.ring > 0 && i < c.feed.taken
    ensures Accounted(c, i + 1) - Accounted(c, i) == Beyond(Place(c, i + 1), c.seen) - Beyond(Place(c, i), c.seen)
  {
    ItemMoves(c, i);
    if c.feed.items[i].Real? {
      RealAccounted(c, i);
    } else {
      NoticeAccounted(c, i);
    }
  }

  lemma {:induction false} LiveRecordsAccounted(c: Console, i: nat)
    requires ConsoleOk(c) && c.read && c.ring > 0 && i <= c.feed.taken
    ensures Accounted(c, i) == Beyond(Place(c, i), c.seen)
  {
    if i > 0 {
      LiveRecordsAccounted(c, i - 1);
      ItemAccounted(c, i - 1);
    }
  }

  /** Of the records newer than the backlog that a console has received or been told of, exactly
      those are never shown that a notice announced, and one more for each notice that its own
      record followed. */
  lemma {:induction false} NeverShown(ring: nat, steps: seq<Step>)
    requires ring > 0 && Play(ring, steps).read
    ensures
      var c := Play(ring, steps);
      && c.feed.taken <= |c.feed.items|
      && Beyond(Place(c, c.feed.taken), c.seen) - ShownLive(c, c.feed.taken) ==
           AnnouncedLive(c, c.feed.taken) + BehindNotices(c, c.feed.taken)
  {
    PlayOk(ring, steps);
    LiveRecordsAccounted(Play(ring, steps), Play(ring, steps).feed.taken);
  }

  lemma {:induction false} PlayThen(ring: nat, steps: seq<Step>, step: Step)
    ensures Play(ring, steps + [step]) == Advance(Play(ring, steps), step)
  {
    assert (steps + [step])[..|steps|] == steps;
  }

  function ThreeLines(): seq<Step> {
    [] + [Subscribes(2)] + [ReadsBacklog] + [Writes("a")] + [Writes("b")] + [Writes("c")]
  }

  function FourLines(): seq<Step> {
    ThreeLines() + [Receives] + [Receives] + [Writes("d")] + [Receives] + [Receives]
  }

  lemma ThirdIsDropped(ring: nat)
    ensures
      var a, b, c := Record(1, "a"), Record(2, "b"), Record(3, "c");
      Play(ring, ThreeLines()) == Console([a, b, c], ring, true, Feed(2, [Real(a), Real(b)], 0, 1, [a, b, c]), 0, true, 0)
  {
    var s1 := [] + [Subscribes(2)];
    var s2 := s1 + [ReadsBacklog];
    var s3 := s2 + [Writes("a")];
    var s4 := s3 + [Writes("b")];
    PlayThen(ring, [], Subscribes(2));
    PlayThen(ring, s1, ReadsBacklog);
    PlayThen(ring, s2, Writes("a"));
    PlayThen(ring, s3, Writes("b"));
    PlayThen(ring, s4, Writes("c"));
  }

  /** It does happen: with a queue of two, the third record is dropped, the notice takes the
      number of the fourth, and the fourth is received and not sent. */
  lemma NoticeHidesNextRecord(ring: nat)
    ensures
      var c := Play(ring, FourLines());
      && c.feed.items == [Real(Record(1, "a")), Real(Record(2, "b")), Notice(4, 1), Real(Record(4, "d"))]
      && c.feed.taken == 4 && c.seen == 0 && c.read
      && Emitted(0, Received(c)) == [Record(1, "a"), Record(2, "b"), Record(4, NoticeLine(1))]
  {
    var s5 := ThreeLines();
    var s6 := s5 + [Receives];
    var s7 := s6 + [Receives];
    var s8 := s7 + [Writes("d")];
    var s9 := s8 + [Receives];
    ThirdIsDropped(ring);
    PlayThen(ring, s5, Receives);
    PlayThen(ring, s6, Receives);
    PlayThen(ring, s7, Writes("d"));
    PlayThen(ring, s8, Receives);
    PlayThen(ring, s9, Receives);
    EmittedNotice(Record(1, "a"), Record(2, "b"), Record(4, NoticeLine(1)), Record(4, "d"));
    var c := Play(ring, FourLines());
    assert Received(c) == [Record(1, "a"), Record(2, "b"), Record(4, NoticeLine(1)), Record(4, "d")];
  }

  lemma EmittedNotice(a: Record, b: Record, notice: Record, d: Record)
    requires a.seqNo == 1 && b.seqNo == 2 && notice.seqNo == 4 && d.seqNo == 4
    ensures Emitted(0, [a, b, notice, d]) == [a, b, notice]
  {
    assert [a, b, notice, d][1..] == [b, notice, d] && [b, notice, d][1..] == [notice, d] && [notice, d][1..] == [d];
    assert Emitted(4, [d]) == Emitted(4, []) == [];
    assert Emitted(2, [notice, d]) == [notice];
    assert Emitted(1, [b, notice, d]) == [b, notice];
  }

  // ----- from the log to the screen -----

  function Records(events: seq<Event>): seq<Record> {
    if events == [] then []
    else if events[0].Live? then [events[0].record] + Records(events[1..])
    else Records(events[1..])
  }

  function LinesOf(records: seq<Record>): seq<string> {
    if records == [] then [] else [records[0].line] + LinesOf(records[1..])
  }

  lemma {:induction false} LiveLines(last: nat, events: seq<Event>)
    ensures Sse.Lines(LivePieces(last, events)) == LinesOf(Emitted(last, Records(events)))
    decreases |events|
  {
    if events != [] {
      match events[0]
      case Tick =>
        LiveLines(last, events[1..]);
        assert LivePieces(last, events)[1..] == LivePieces(last, events[1..]);
      case Live(record) =>
        assert Records(events)[1..] == Records(events[1..]);
        LiveLines(if record.seqNo <= last then last else record.seqNo, events[1..]);
        if record.seqNo > last {
          assert LivePieces(last, events)[1..] == LivePieces(record.seqNo, events[1..]);
          assert Emitted(last, Records(events))[1..] == Emitted(record.seqNo, Records(events[1..]));
        }
    }
  }

  lemma {:induction false} AllLines(backlog: seq<Record>, live: seq<Sse.Piece>)
    ensures Sse.Lines(BacklogPieces(backlog) + live) == LinesOf(backlog) + Sse.Lines(live)
  {
    if backlog == [] {
      assert BacklogPieces(backlog) + live == live;
    } else {
      AllLines(backlog[1..], live);
      assert backlog[0..] == backlog;
      BacklogFirst(backlog, 0, live);
      LinesFirst(backlog[0].seqNo, backlog[0].line, BacklogPieces(backlog[1..]) + live);
    }
  }

  lemma LinesFirst(seqNo: nat, line: string, rest: seq<Sse.Piece>)
    ensures Sse.Lines([Sse.Event(seqNo, line)] + rest) == [line] + Sse.Lines(rest)
  {
    assert ([Sse.Event(seqNo, line)] + rest)[1..] == rest;
  }

  ghost predicate AllPlain(records: seq<Record>) {
    forall r :: r in records ==> Sse.Plain(r.line)
  }

  ghost predicate PiecesArePlain(pieces: seq<Sse.Piece>) {
    forall p :: p in pieces && p.Event? ==> Sse.Plain(p.line)
  }

  lemma {:induction false} LivePlain(last: nat, events: seq<Event>)
    ensures PiecesArePlain(LivePieces(last, events)) <==> AllPlain(Emitted(last, Records(events)))
    decreases |events|
  {
    if events != [] {
      match events[0]
      case Tick =>
        LivePlain(last, events[1..]);
        PlainFirst(Sse.Keepalive, LivePieces(last, events[1..]));
      case Live(record) =>
        assert Records(events)[1..] == Records(events[1..]);
        LivePlain(if record.seqNo <= last then last else record.seqNo, events[1..]);
        PlainFirst(Sse.Event(record.seqNo, record.line), LivePieces(record.seqNo, events[1..]));
        PlainRecordFirst(record, Emitted(record.seqNo, Records(events[1..])));
    }
  }

  lemma {:induction false} BacklogPlain(backlog: seq<Record>, live: seq<Sse.Piece>)
    ensures PiecesArePlain(BacklogPieces(backlog) + live) <==> AllPlain(backlog) && PiecesArePlain(live)
  {
    if backlog == [] {
      assert BacklogPieces(backlog) + live == live;
    } else {
      BacklogPlain(backlog[1..], live);
      assert backlog[0..] == backlog;
      BacklogFirst(backlog, 0, live);
      PlainFirst(Sse.Event(backlog[0].seqNo, backlog[0].line), BacklogPieces(backlog[1..]) + live);
      PlainRecordFirst(backlog[0], backlog[1..]);
      assert backlog == [backlog[0]] + backlog[1..];
    }
  }

  lemma PlainFirst(p: Sse.Piece, rest: seq<Sse.Piece>)
    ensures PiecesArePlain([p] + rest) <==> (p.Event? ==> Sse.Plain(p.line)) && PiecesArePlain(rest)
  {
    assert forall q :: q in [p] + rest <==> q == p || q in rest;
  }

  lemma PlainRecordFirst(r: Record, rest: seq<Record>)
    ensures AllPlain([r] + rest) <==> Sse.Plain(r.line) && AllPlain(rest)
  {
    assert forall q :: q in [r] + rest <==> q == r || q in rest;
  }

  /** Server and browser together: however the response is cut up in transit, the console shows
      the backlog and then the emitted records, line for line, if and only if each of them is
      non-empty and unindented. */
  lemma {:induction false} ConsoleShowsWhatWasEmittedIff(backlog: seq<Record>, events: seq<Event>, chunks: seq<string>)
    requires Text.Concat(chunks) == Sse.StreamText(Pieces(backlog, events))
    ensures
      var emitted := Emitted(LastSeq(backlog), Records(events));
      Sse.FedAll(Sse.Reader("", []), chunks).handled == LinesOf(backlog) + LinesOf(emitted) <==>
        AllPlain(backlog) && AllPlain(emitted)
  {
    LivePlain(LastSeq(backlog), events);
    BacklogPlain(backlog, LivePieces(LastSeq(backlog), events));
    Sse.RecordsArriveExactlyIff(Pieces(backlog, events), chunks);
    AllLines(backlog, LivePieces(LastSeq(backlog), events));
    LiveLines(LastSeq(backlog), events);
  }
}
