/** The log ring and its lossy fan-out (internal/logging/recorder.go).  Sequence numbers are
    unbounded here. */
module LogRecorder {
  import opened Text

  datatype Record = Record(seqNo: nat, line: string)

  /** The notice a subscriber gets, with the number of records it missed. */
  function NoticeLine(count: nat): string {
    "{\"dropped\":" + Digits(count) + ",\"level\":\"WARN\",\"msg\":\"log console fell behind; some lines were dropped\"}"
  }

  // ----- one subscriber, with its history -----

  datatype Item = Real(record: Record) | Notice(seqNo: nat, count: nat)

  function AsRecord(item: Item): Record {
    match item
    case Real(record) => record
    case Notice(seqNo, count) => Record(seqNo, NoticeLine(count))
  }

  function AsRecords(items: seq<Item>): (r: seq<Record>)
    ensures |r| == |items| && forall i :: 0 <= i < |items| ==> r[i] == AsRecord(items[i])
  {
    seq(|items|, i requires 0 <= i < |items| => AsRecord(items[i]))
  }

  /** A subscription: everything ever put into its channel, how much of that has been taken out,
      the current drop counter, and every record written since it began. */
  datatype Feed = Feed(capacity: nat, items: seq<Item>, taken: nat, dropped: nat, offered: seq<Record>)

  function Opened(capacity: nat): Feed {
    Feed(capacity, [], 0, 0, [])
  }

  predicate HasRoom(f: Feed) {
    |f.items| - f.taken < f.capacity
  }

  function PutReal(f: Feed, record: Record): Feed {
    if HasRoom(f) then f.(items := f.items + [Real(record)]) else f.(dropped := f.dropped + 1)
  }

  function Offer(f: Feed, record: Record): Feed {
    var g :=
      if f.dropped == 0 then PutReal(f, record)
      else if HasRoom(f) then PutReal(f.(items := f.items + [Notice(record.seqNo, f.dropped)], dropped := 0), record)
      else f.(dropped := f.dropped + 1);
    g.(offered := f.offered + [record])
  }

  function Taken(f: Feed): Feed {
    if f.taken < |f.items| then f.(taken := f.taken + 1) else f
  }

  datatype FeedEvent = Offers(record: Record) | Takes

  function FeedRun(f: Feed, events: seq<FeedEvent>): Feed {
    if events == [] then f
    else
      var g := FeedRun(f, events[..|events| - 1]);
      match events[|events| - 1]
      case Offers(record) => Offer(g, record)
      case Takes => Taken(g)
  }

  // ----- drop accounting -----

  /** How many written records a history accounts for: one for each real record, and the
      announced number for each notice. */
  function Covered(items: seq<Item>): nat {
    if items == [] then 0
    else
      var last := items[|items| - 1];
      Covered(items[..|items| - 1]) + if last.Real? then 1 else last.count
  }

  /** Each real record is the written record at exactly the position the history so far accounts
      for, and a notice carries the number of the record that comes after what it announces. */
  ghost predicate Placed(items: seq<Item>, offered: seq<Record>) {
    forall i {:trigger PlacedAt(items[i], Covered(items[..i]), offered)} :: 0 <= i < |items| ==>
      PlacedAt(items[i], Covered(items[..i]), offered)
  }

  ghost predicate PlacedAt(item: Item, place: nat, offered: seq<Record>) {
    match item
    case Real(record) => place < |offered| && record == offered[place]
    case Notice(seqNo, count) => count > 0 && place + count < |offered| && seqNo == offered[place + count].seqNo
  }

  ghost predicate FeedOk(f: Feed) {
    && f.taken <= |f.items| && |f.items| - f.taken <= f.capacity
    && Covered(f.items) + f.dropped == |f.offered|
    && Placed(f.items, f.offered)
  }

  lemma CoveredAppend(items: seq<Item>, item: Item)
    ensures Covered(items + [item]) == Covered(items) + if item.Real? then 1 else item.count
    ensures forall i :: 0 <= i <= |items| ==> (items + [item])[..i] == items[..i]
  {
    assert (items + [item])[..|items|] == items;
  }

  lemma {:induction false} PlacedAppend(items: seq<Item>, item: Item, offered: seq<Record>)
    requires Placed(items, offered) && PlacedAt(item, Covered(items), offered)
    ensures Placed(items + [item], offered)
  {
    CoveredAppend(items, item);
    var more := items + [item];
    forall i | 0 <= i < |more|
      ensures PlacedAt(more[i], Covered(more[..i]), offered)
    {
      assert more[..i] == items[..i];
      if i < |items| {
        assert PlacedAt(items[i], Covered(items[..i]), offered);
      } else {
        assert items[..i] == items;
      }
    }
  }

  lemma PlacedLonger(items: seq<Item>, offered: seq<Record>, record: Record)
    requires Placed(items, offered)
    ensures Placed(items, offered + [record])
  {
    forall i | 0 <= i < |items|
      ensures PlacedAt(items[i], Covered(items[..i]), offered + [record])
    {
      assert PlacedAt(items[i], Covered(items[..i]), offered);
    }
  }

  lemma PutRealOk(f: Feed, record: Record, offered: seq<Record>)
    requires f.taken <= |f.items| && |f.items| - f.taken <= f.capacity
    requires Placed(f.items, offered) && offered != [] && record == offered[|offered| - 1]
    requires Covered(f.items) + f.dropped == |offered| - 1 && f.dropped == 0
    ensures FeedOk(PutReal(f, record).(offered := offered))
  {
    if HasRoom(f) {
      CoveredAppend(f.items, Real(record));
      PlacedAppend(f.items, Real(record), offered);
    }
  }

  lemma OfferOk(f: Feed, record: Record)
    requires FeedOk(f)
    ensures FeedOk(Offer(f, record))
  {
    var offered := f.offered + [record];
    PlacedLonger(f.items, f.offered, record);
    if f.dropped == 0 {
      PutRealOk(f, record, offered);
    } else if HasRoom(f) {
      var notice := Notice(record.seqNo, f.dropped);
      CoveredAppend(f.items, notice);
      PlacedAppend(f.items, notice, offered);
      PutRealOk(f.(items := f.items + [notice], dropped := 0), record, offered);
    }
  }

  lemma {:induction false} FeedRunOk(f: Feed, events: seq<FeedEvent>)
    requires FeedOk(f)
    ensures FeedOk(FeedRun(f, events))
  {
    if events != [] {
      FeedRunOk(f, events[..|events| - 1]);
      var e := events[|events| - 1];
      if e.Offers? {
        OfferOk(FeedRun(f, events[..|events| - 1]), e.record);
      }
    }
  }

  function Reals(items: seq<Item>): seq<Record> {
    if items == [] then []
    else
      var last := items[|items| - 1];
      Reals(items[..|items| - 1]) + if last.Real? then [last.record] else []
  }

  function Announced(items: seq<Item>): nat {
    if items == [] then 0
    else
      var last := items[|items| - 1];
      Announced(items[..|items| - 1]) + if last.Notice? then last.count else 0
  }

  lemma {:induction false} CoveredIsSum(items: seq<Item>)
    ensures Covered(items) == |Reals(items)| + Announced(items)
  {
    if items != [] {
      CoveredIsSum(items[..|items| - 1]);
    }
  }

  /** The records written, of these events. */
  function WrittenIn(events: seq<FeedEvent>): seq<Record> {
    if events == [] then []
    else
      var last := events[|events| - 1];
      WrittenIn(events[..|events| - 1]) + if last.Offers? then [last.record] else []
  }

  lemma {:induction false} AllOffered(capacity: nat, events: seq<FeedEvent>)
    ensures FeedRun(Opened(capacity), events).offered == WrittenIn(events)
  {
    if events != [] {
      AllOffered(capacity, events[..|events| - 1]);
    }
  }

  /** Nothing is lost silently: over any writes and reads, real records enqueued, records
      announced as missed, and the current counter add up to the records written. */
  lemma {:induction false} DropsConserved(capacity: nat, events: seq<FeedEvent>)
    ensures
      var f := FeedRun(Opened(capacity), events);
      |Reals(f.items)| + Announced(f.items) + f.dropped == |f.offered| && f.offered == WrittenIn(events)
  {
    FeedRunOk(Opened(capacity), events);
    AllOffered(capacity, events);
    CoveredIsSum(FeedRun(Opened(capacity), events).items);
  }

  lemma {:induction false} CoveredGrows(items: seq<Item>, i: nat, j: nat)
    requires i <= j <= |items|
    requires forall k :: 0 <= k < |items| && items[k].Notice? ==> items[k].count > 0
    ensures Covered(items[..i]) + (j - i) <= Covered(items[..j])
  {
    if i < j {
      CoveredGrows(items, i, j - 1);
      assert items[..j][..j - 1] == items[..j - 1];
    }
  }

  /** A reader that adds up notices knows the exact place of every record it gets, and the places
      of later records are later: what is enqueued is a subsequence of the log, in order. */
  lemma {:induction false} RecordsKeepTheirPlaces(capacity: nat, events: seq<FeedEvent>, i: nat, j: nat)
    ensures
      var f := FeedRun(Opened(capacity), events);
      i < j < |f.items| && f.items[i].Real? && f.items[j].Real? ==>
        var p, q := Covered(f.items[..i]), Covered(f.items[..j]);
        p < q < |f.offered| && f.items[i].record == f.offered[p] && f.items[j].record == f.offered[q]
  {
    FeedRunOk(Opened(capacity), events);
    var f := FeedRun(Opened(capacity), events);
    if i < j < |f.items| {
      assert PlacedAt(f.items[i], Covered(f.items[..i]), f.offered) && PlacedAt(f.items[j], Covered(f.items[..j]), f.offered);
      assert forall k :: 0 <= k < |f.items| ==> PlacedAt(f.items[k], Covered(f.items[..k]), f.offered);
      CoveredGrows(f.items, i, j);
    }
  }

  // ----- the ring -----

  ghost predicate Numbered(log: seq<Record>) {
    forall i :: 0 <= i < |log| ==> log[i].seqNo == i + 1
  }

  function Retained(log: seq<Record>, capacity: nat): seq<Record> {
    if |log| <= capacity then log else log[|log| - capacity..]
  }

  function TrimNewlines(p: string): string {
    if p != "" && p[|p| - 1] == '\n' then TrimNewlines(p[..|p| - 1]) else p
  }

  function Newlines(n: nat): string {
    seq(n, _ => '\n')
  }

  /** What is recorded of a write is the text without the newlines at its end, and nothing less. */
  lemma {:induction false} TrimmedOfNewlines(p: string)
    ensures TrimNewlines(p) != "" ==> TrimNewlines(p)[|TrimNewlines(p)| - 1] != '\n'
    ensures |TrimNewlines(p)| <= |p| && p == TrimNewlines(p) + Newlines(|p| - |TrimNewlines(p)|)
  {
    if p != "" && p[|p| - 1] == '\n' {
      var n := |p| - 1;
      TrimmedOfNewlines(p[..n]);
      var line := TrimNewlines(p);
      assert Newlines(|p| - |line|) == Newlines(n - |line|) + "\n";
      assert p == p[..n] + "\n";
    }
  }

  class Subscriber {
    const capacity: nat
    var queue: seq<Record>
    var dropped: nat
    ghost var feed: Feed

    ghost predicate Valid()
      reads this
    {
      && feed.taken <= |feed.items| && feed.capacity == capacity && feed.dropped == dropped
      && queue == AsRecords(feed.items[feed.taken..])
    }

    constructor (capacity: nat)
      ensures Valid() && feed == Opened(capacity) && this.capacity == capacity
    {
      this.capacity, queue, dropped := capacity, [], 0;
      feed := Opened(capacity);
    }

    /** Never blocks: what does not fit is counted, and the count is announced first. */
    method Send(record: Record)
      requires Valid()
      modifies this
      ensures Valid() && feed == Offer(old(feed), record)
    {
      ghost var g := feed;
      feed := Offer(feed, record);
      if dropped > 0 {
        if |queue| < capacity {
          g := g.(items := g.items + [Notice(record.seqNo, dropped)], dropped := 0);
          queue := queue + [Record(record.seqNo, NoticeLine(dropped))];
          dropped := 0;
        } else {
          dropped := dropped + 1;
          return;
        }
      }
      if |queue| < capacity {
        queue := queue + [record];
      } else {
        dropped := dropped + 1;
      }
    }

    method Receive() returns (record: Record)
      requires Valid() && queue != []
      modifies this
      ensures Valid() && feed == Taken(old(feed)) && record == AsRecord(old(feed.items)[old(feed.taken)])
    {
      record := queue[0];
      queue := queue[1..];
      feed := Taken(feed);
    }
  }

  /** The slot k before the write cursor. */
  function SlotBefore(next: nat, k: nat, n: nat): int {
    if k < next then next - 1 - k else next - 1 - k + n
  }

  lemma WrapSum(x: nat, n: nat)
    requires 0 < n && x < 2 * n
    ensures x % n == if x < n then x else x - n
  {
  }

  const DEFAULT_CAPACITY := 1000
  const DEFAULT_BUFFER := 256

  class Recorder {
    const ring: array<Record>
    var next: nat
    var filled: nat
    var seqNo: nat
    var subs: map<nat, Subscriber>
    var nextSub: nat
    ghost var log: seq<Record>

    ghost predicate RingHolds()
      reads this, ring
    {
      && ring.Length > 0 && seqNo == |log| && Numbered(log) && next < ring.Length
      && filled == (if |log| < ring.Length then |log| else ring.Length)
      && (filled < ring.Length ==> next == filled)
      && forall k :: 0 <= k < filled ==> ring[SlotBefore(next, k, ring.Length)] == log[|log| - 1 - k]
    }

    ghost predicate Valid()
      reads this, ring, subs.Values
    {
      RingHolds() && SubsValid()
    }

    constructor (capacity: int)
      ensures Valid() && log == [] && subs == map[] && fresh(ring)
      ensures ring.Length == if capacity <= 0 then 1000 else capacity
    {
      var n := if capacity <= 0 then DEFAULT_CAPACITY else capacity;
      ring := new Record[n](_ => Record(0, ""));
      next, filled, seqNo, nextSub, subs := 0, 0, 0, 0, map[];
      log := [];
    }

    method Store(record: Record)
      requires RingHolds() && record.seqNo == |log| + 1
      modifies this`next, this`filled, this`seqNo, this`log, ring
      ensures RingHolds() && log == old(log) + [record]
    {
      seqNo := record.seqNo;
      ring[next] := record;
      WrapSum(next + 1, ring.Length);
      next := (next + 1) % ring.Length;
      if filled < ring.Length {
        filled := filled + 1;
      }
      log := log + [record];
      forall k | 0 <= k < filled
        ensures ring[SlotBefore(next, k, ring.Length)] == log[|log| - 1 - k]
      {
        if k > 0 {
          assert SlotBefore(next, k, ring.Length) == SlotBefore(old(next), k - 1, ring.Length);
        }
      }
    }

    method Write(p: string)
      requires Valid()
      modifies this`next, this`filled, this`seqNo, this`log, ring, subs.Values
      ensures Valid()
      ensures TrimNewlines(p) == "" ==> log == old(log) && forall i :: i in subs ==> subs[i].feed == old(subs[i].feed)
      ensures TrimNewlines(p) != "" ==>
        var record := Record(|old(log)| + 1, TrimNewlines(p));
        log == old(log) + [record] && forall i :: i in subs ==> subs[i].feed == Offer(old(subs[i].feed), record)
    {
      var line := TrimNewlines(p);
      if line == "" {
        return;
      }
      var record := Record(seqNo + 1, line);
      Store(record);
      FanOut(record);
    }

    ghost predicate SubsValid()
      reads this, subs.Values
    {
      && (forall i :: i in subs ==> i < nextSub && subs[i].Valid())
      && (forall i, j :: i in subs && j in subs && i != j ==> subs[i] != subs[j])
    }

    /** Subscribers are visited in no particular order. */
    method FanOut(record: Record)
      requires SubsValid()
      modifies subs.Values
      ensures SubsValid() && forall i :: i in subs ==> subs[i].feed == Offer(old(subs[i].feed), record)
    {
      var todo := subs.Keys;
      while todo != {}
        invariant todo <= subs.Keys
        invariant forall i :: i in subs ==> subs[i].Valid()
        invariant forall i :: i in todo ==> subs[i].feed == old(subs[i].feed)
        invariant forall i :: i in subs && i !in todo ==> subs[i].feed == Offer(old(subs[i].feed), record)
      {
        var i :| i in todo;
        todo := todo - {i};
        subs[i].Send(record);
      }
    }

    /** The retained records, oldest first. */
    method Backlog() returns (out: seq<Record>)
      requires Valid()
      ensures out == Retained(log, ring.Length)
    {
      out := [];
      var start := 0;
      if filled == ring.Length {
        start := next;
      }
      var i := 0;
      while i < filled
        invariant 0 <= i <= filled
        invariant out == Retained(log, ring.Length)[..i]
      {
        WrapSum(start + i, ring.Length);
        assert (start + i) % ring.Length == SlotBefore(next, filled - 1 - i, ring.Length);
        assert Retained(log, ring.Length)[i] == log[|log| - filled + i];
        out := out + [ring[(start + i) % ring.Length]];
        i := i + 1;
      }
    }

    method Subscribe(buffer: int) returns (id: nat, sub: Subscriber)
      requires Valid()
      modifies this`subs, this`nextSub
      ensures Valid() && log == old(log) && fresh(sub)
      ensures sub.feed == Opened(if buffer <= 0 then 256 else buffer)
      ensures id !in old(subs) && subs == old(subs)[id := sub]
    {
      id := nextSub;
      nextSub := nextSub + 1;
      sub := new Subscriber(if buffer <= 0 then DEFAULT_BUFFER else buffer);
      subs := subs[id := sub];
    }

    method Cancel(id: nat)
      requires Valid()
      modifies this`subs
      ensures Valid() && subs == old(subs) - {id}
    {
      subs := subs - {id};
    }
  }
}
