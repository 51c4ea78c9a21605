/** The writers that scan process output for the tunnel's URL (internal/tunnel/cloudflared.go) and
    for its readiness marker (internal/tunnel/managed.go). The two bodies are the same but for
    what a line is matched against, so that is a parameter here. */
module LineScanner {
  import opened Text
  import opened Wrappers

  const MAX_BUFFER := 64 * 1024

  /** strings.IndexByte. */
  function IndexOf(s: string, c: char): (i: int)
    ensures -1 <= i < |s|
    ensures i == -1 <==> Free(s, c)
    ensures i >= 0 ==> s[i] == c && Free(s[..i], c)
  {
    if s == "" then -1
    else if s[0] == c then 0
    else
      var i := IndexOf(s[1..], c);
      if i == -1 then -1
      else
        assert s[..i + 1] == [s[0]] + s[1..][..i];
        i + 1
  }

  // ----- what a sequence of writes means -----

  /** The first of these complete lines that matches, as what is reported for it. */
  function FirstMatch<S>(extract: string -> Option<S>, lines: seq<string>): Option<S> {
    if lines == [] then None
    else if extract(lines[0]).Some? then extract(lines[0])
    else FirstMatch(extract, lines[1..])
  }

  function Complete(text: string): seq<string> {
    var parts := Split(text, '\n');
    parts[..|parts| - 1]
  }

  function Partial(text: string): string {
    var parts := Split(text, '\n');
    parts[|parts| - 1]
  }

  datatype Scan = Scan(buf: string, found: bool)

  /** What one write makes of what was kept and the new output. */
  function Written<S>(extract: string -> Option<S>, s: Scan, p: string): (r: (Scan, Option<S>))
    ensures |s.buf| <= MAX_BUFFER ==> |r.0.buf| <= MAX_BUFFER
    ensures r.0.found <==> s.found || r.1.Some?
    ensures s.found ==> r.1.None?
  {
    if s.found then (s, None)
    else
      var text := s.buf + p;
      var hit := FirstMatch(extract, Complete(text));
      if hit.Some? then (Scan("", true), hit)
      else (Scan(if |Partial(text)| > MAX_BUFFER then "" else Partial(text), false), None)
  }

  // ----- the writer -----

  /** A buffered channel that is only sent to when it has room. */
  class Signals<S> {
    const capacity: nat
    var queue: seq<S>

    constructor (capacity: nat)
      ensures this.capacity == capacity && queue == []
    {
      this.capacity := capacity;
      queue := [];
    }

    method Offer(x: S)
      modifies this
      ensures queue == Offered(old(queue), capacity, x)
      ensures |old(queue)| < capacity ==> queue == old(queue) + [x]
      ensures |old(queue)| <= capacity ==> |queue| <= capacity
    {
      if |queue| < capacity {
        queue := queue + [x];
      }
    }
  }

  function Offered<S>(queue: seq<S>, capacity: nat, x: S): seq<S> {
    if |queue| < capacity then queue + [x] else queue
  }

  class LineScanWriter<S> {
    const signals: Signals<S>
    const extract: string -> Option<S>
    var buf: string
    var found: bool

    function State(): Scan
      reads this
    {
      Scan(buf, found)
    }

    constructor (signals: Signals<S>, extract: string -> Option<S>)
      ensures this.signals == signals && this.extract == extract && State() == Scan("", false)
    {
      this.signals, this.extract, buf, found := signals, extract, "", false;
    }

    method Write(p: string) returns (n: nat)
      modifies this`buf, this`found, signals
      ensures n == |p|
      ensures
        var (next, report) := Written(extract, old(State()), p);
        && State() == next
        && signals.queue == if report.Some? then Offered(old(signals.queue), signals.capacity, report.value) else old(signals.queue)
      ensures |old(buf)| <= MAX_BUFFER ==> |buf| <= MAX_BUFFER
    {
      if found {
        return |p|;
      }
      buf := buf + p;
      ghost var text := buf;
      ghost var before := signals.queue;
      while true
        invariant !found && signals.queue == before
        invariant FirstMatch(extract, Complete(text)) == FirstMatch(extract, Complete(buf))
        invariant Partial(text) == Partial(buf)
        decreases |buf|
      {
        var s := buf;
        var i := IndexOf(s, '\n');
        if i < 0 {
          NoLine(s);
          break;
        }
        var line := s[..i];
        buf := s[i + 1..];
        TakeLine(extract, s, i);
        var m := extract(line);
        if m.Some? {
          found := true;
          signals.Offer(m.value);
          buf := "";
          break;
        }
      }
      if !found && |buf| > MAX_BUFFER {
        buf := "";
      }
      n := |p|;
    }
  }

  lemma TakeLine<S>(extract: string -> Option<S>, s: string, i: nat)
    requires i < |s| && s[i] == '\n' && Free(s[..i], '\n')
    ensures FirstMatch(extract, Complete(s)) ==
      if extract(s[..i]).Some? then extract(s[..i]) else FirstMatch(extract, Complete(s[i + 1..]))
    ensures Partial(s) == Partial(s[i + 1..])
  {
    FirstLine(s[..i], s[i + 1..]);
    assert s == s[..i] + "\n" + s[i + 1..];
  }

  lemma NoLine(s: string)
    requires Free(s, '\n')
    ensures Complete(s) == [] && Partial(s) == s
  {
    SplitFree(s, '\n');
  }

  lemma FirstLine(line: string, rest: string)
    requires Free(line, '\n')
    ensures Complete(line + "\n" + rest) == [line] + Complete(rest)
    ensures Partial(line + "\n" + rest) == Partial(rest)
  {
    SplitAtSeparator(line, '\n', rest);
  }

  // ----- how the output is cut does not matter -----

  function WrittenAll<S>(extract: string -> Option<S>, writes: seq<string>): (Scan, seq<S>) {
    if writes == [] then (Scan("", false), [])
    else
      var (s, reports) := WrittenAll(extract, writes[..|writes| - 1]);
      var (next, report) := Written(extract, s, writes[|writes| - 1]);
      (next, if report.Some? then reports + [report.value] else reports)
  }

  /** No line over the bound, up to and including the first that matches. */
  predicate ShortUntilMatch<S>(extract: string -> Option<S>, lines: seq<string>) {
    lines != [] ==>
      |lines[0]| <= MAX_BUFFER && (extract(lines[0]).Some? || ShortUntilMatch(extract, lines[1..]))
  }

  predicate Scannable<S>(extract: string -> Option<S>, text: string) {
    && ShortUntilMatch(extract, Complete(text))
    && (FirstMatch(extract, Complete(text)).None? ==> |Partial(text)| <= MAX_BUFFER)
  }

  /** The one-write reading: what the whole output has to report. */
  function Seen<S>(extract: string -> Option<S>, text: string): (Scan, seq<S>) {
    var hit := FirstMatch(extract, Complete(text));
    if hit.Some? then (Scan("", true), [hit.value]) else (Scan(Partial(text), false), [])
  }

  lemma {:induction false} FirstMatchAppend<S>(extract: string -> Option<S>, a: seq<string>, b: seq<string>)
    ensures FirstMatch(extract, a + b) == if FirstMatch(extract, a).Some? then FirstMatch(extract, a) else FirstMatch(extract, b)
    ensures ShortUntilMatch(extract, a + b) <==>
      ShortUntilMatch(extract, a) && (FirstMatch(extract, a).None? ==> ShortUntilMatch(extract, b))
  {
    if a == [] {
      assert a + b == b;
    } else {
      assert (a + b)[1..] == a[1..] + b;
      FirstMatchAppend(extract, a[1..], b);
    }
  }

  /** More output completes the kept partial line and changes no line before it. */
  lemma {:induction false} SplitMore(a: string, b: string)
    ensures Complete(a + b) == Complete(a) + Complete(Partial(a) + b)
    ensures Partial(a + b) == Partial(Partial(a) + b)
    decreases |a|
  {
    var i := IndexOf(a, '\n');
    if i < 0 {
      SplitFree(a, '\n');
      assert Complete(a) == [];
    } else {
      var line, rest := a[..i], a[i + 1..];
      assert a == line + "\n" + rest;
      assert a + b == line + "\n" + (rest + b);
      FirstLine(line, rest);
      FirstLine(line, rest + b);
      SplitMore(rest, b);
      Regroup([line], Complete(rest), Complete(Partial(rest) + b));
    }
  }

  /** The part of a line that has arrived is no longer than the line. */
  lemma PartialIsPrefix(a: string, b: string)
    ensures
      var more := Complete(Partial(a) + b);
      if more == [] then |Partial(a)| <= |Partial(a + b)| else |Partial(a)| <= |more[0]|
  {
    var parts := Split(a, '\n');
    SplitPartsFree(a, '\n');
    assert parts[|parts| - 1] in parts;
    var kept := Partial(a);
    SplitMore(a, b);
    var i := IndexOf(b, '\n');
    if i < 0 {
      assert Free(kept + b, '\n');
      SplitFree(kept + b, '\n');
    } else {
      assert kept + b == (kept + b[..i]) + "\n" + b[i + 1..];
      FirstLine(kept + b[..i], b[i + 1..]);
    }
  }

  lemma ScannablePrefix<S>(extract: string -> Option<S>, a: string, b: string)
    requires Scannable(extract, a + b)
    ensures Scannable(extract, a)
  {
    SplitMore(a, b);
    FirstMatchAppend(extract, Complete(a), Complete(Partial(a) + b));
    PartialIsPrefix(a, b);
  }

  /** One more write, from where the output so far left the writer. */
  lemma WriteSeen<S>(extract: string -> Option<S>, text: string, p: string)
    requires Scannable(extract, text + p)
    ensures Scannable(extract, text)
    ensures Written(extract, Seen(extract, text).0, p).0 == Seen(extract, text + p).0
    ensures FirstMatch(extract, Complete(text + p)) ==
      if FirstMatch(extract, Complete(text)).Some? then FirstMatch(extract, Complete(text))
      else Written(extract, Seen(extract, text).0, p).1
  {
    ScannablePrefix(extract, text, p);
    SplitMore(text, p);
    FirstMatchAppend(extract, Complete(text), Complete(Partial(text) + p));
  }

  /** Whatever the split into writes, the writer reports the first complete matching line of the
      whole output, once, and nothing if there is none. */
  lemma {:induction false} SplitDoesNotMatter<S>(extract: string -> Option<S>, writes: seq<string>)
    requires Scannable(extract, Concat(writes))
    ensures WrittenAll(extract, writes) == Seen(extract, Concat(writes))
  {
    if writes == [] {
      assert Split("", '\n') == [""];
    } else {
      var before, p := Concat(writes[..|writes| - 1]), writes[|writes| - 1];
      WriteSeen(extract, before, p);
      SplitDoesNotMatter(extract, writes[..|writes| - 1]);
      var (s, reports) := Seen(extract, before);
      var report := Written(extract, s, p).1;
      if report.Some? {
        assert reports + [report.value] == [report.value];
      }
    }
  }

  // ----- searching a line, not matching it whole -----

  /** Both patterns are searched for: what is found in the tail of a line is found in the line. */
  ghost predicate Searches<S>(extract: string -> Option<S>) {
    forall head, tail :: extract(tail).Some? ==> FoundIn(extract, head, tail)
  }

  predicate FoundIn<S>(extract: string -> Option<S>, head: string, tail: string) {
    extract(head + tail).Some?
  }

  /** The first line that matches, if any does, fits the buffer. */
  predicate FirstMatchFits<S>(extract: string -> Option<S>, lines: seq<string>) {
    lines != [] ==>
      if extract(lines[0]).Some? then |lines[0]| <= MAX_BUFFER else FirstMatchFits(extract, lines[1..])
  }

  lemma {:induction false} FirstMatchFitsAppend<S>(extract: string -> Option<S>, a: seq<string>, b: seq<string>)
    ensures FirstMatchFits(extract, a + b) <==>
      FirstMatchFits(extract, a) && (FirstMatch(extract, a).None? ==> FirstMatchFits(extract, b))
  {
    if a == [] {
      assert a + b == b;
    } else {
      assert (a + b)[1..] == a[1..] + b;
      FirstMatchFitsAppend(extract, a[1..], b);
    }
  }

  predicate TailOf(kept: string, whole: string) {
    kept == whole || (whole != "" && TailOf(kept, whole[1..]))
  }

  lemma {:induction false} EmptyTail(whole: string)
    ensures TailOf("", whole)
  {
    if whole != "" {
      EmptyTail(whole[1..]);
    }
  }

  lemma {:induction false} TailAppend(kept: string, whole: string, more: string)
    requires TailOf(kept, whole)
    ensures TailOf(kept + more, whole + more)
  {
    if kept != whole {
      TailAppend(kept, whole[1..], more);
      assert (whole + more)[1..] == whole[1..] + more;
    }
  }

  lemma {:induction false} TailFree(kept: string, whole: string, c: char)
    requires TailOf(kept, whole) && Free(whole, c)
    ensures Free(kept, c) && |kept| <= |whole|
  {
    if kept != whole {
      TailFree(kept, whole[1..], c);
    }
  }

  /** Before a match, what is kept is the end of the line so far, and all of it while it fits. */
  predicate Keeps(buf: string, partial: string) {
    TailOf(buf, partial) && (|partial| <= MAX_BUFFER ==> buf == partial)
  }

  /** Where the writer stands after this much output. */
  predicate Stands<S(==)>(extract: string -> Option<S>, text: string, s: Scan, reports: seq<S>) {
    var hit := FirstMatch(extract, Complete(text));
    && s.found == hit.Some?
    && reports == (if hit.Some? then [hit.value] else [])
    && (!s.found ==> Keeps(s.buf, Partial(text)))
  }

  /** New output joins what was kept as it joins the line, but for a missing beginning. */
  lemma KeptLines(buf: string, partial: string, p: string)
    requires TailOf(buf, partial) && Free(partial, '\n')
    ensures
      var whole, kept := Complete(partial + p), Complete(buf + p);
      if whole == [] then kept == [] && Partial(buf + p) == buf + p && Partial(partial + p) == partial + p
      else
        && kept != [] && kept[1..] == whole[1..] && TailOf(kept[0], whole[0]) && |whole[0]| >= |partial|
        && (buf == partial ==> kept[0] == whole[0])
        && Partial(buf + p) == Partial(partial + p)
  {
    TailFree(buf, partial, '\n');
    var i := IndexOf(p, '\n');
    if i < 0 {
      NoLine(partial + p);
      NoLine(buf + p);
    } else {
      assert partial + p == (partial + p[..i]) + "\n" + p[i + 1..];
      assert buf + p == (buf + p[..i]) + "\n" + p[i + 1..];
      FirstLine(partial + p[..i], p[i + 1..]);
      FirstLine(buf + p[..i], p[i + 1..]);
      TailAppend(buf, partial, p[..i]);
    }
  }

  lemma {:induction false} TailFound<S>(extract: string -> Option<S>, kept: string, whole: string)
    requires Searches(extract) && TailOf(kept, whole)
    ensures extract(kept).Some? ==> extract(whole).Some?
  {
    if kept != whole {
      TailFound(extract, kept, whole[1..]);
      assert whole == [whole[0]] + whole[1..];
      assert extract(whole[1..]).Some? ==> FoundIn(extract, [whole[0]], whole[1..]);
    }
  }

  /** A missing beginning changes the first match only if it is a beginning of the first match. */
  lemma KeptMatch<S>(extract: string -> Option<S>, buf: string, partial: string, p: string)
    requires Searches(extract) && Keeps(buf, partial) && Free(partial, '\n')
    requires FirstMatchFits(extract, Complete(partial + p))
    ensures FirstMatch(extract, Complete(buf + p)) == FirstMatch(extract, Complete(partial + p))
  {
    KeptLines(buf, partial, p);
    var whole, kept := Complete(partial + p), Complete(buf + p);
    if whole != [] {
      TailFound(extract, kept[0], whole[0]);
    }
  }

  lemma KeptPartial(buf: string, partial: string, p: string)
    requires Keeps(buf, partial) && Free(partial, '\n')
    ensures Keeps(if |Partial(buf + p)| > MAX_BUFFER then "" else Partial(buf + p), Partial(partial + p))
  {
    KeptLines(buf, partial, p);
    EmptyTail(Partial(partial + p));
    TailAppend(buf, partial, p);
    TailFree(buf, partial, '\n');
  }

  lemma PartialFree(text: string)
    ensures Free(Partial(text), '\n')
  {
    SplitPartsFree(text, '\n');
    var parts := Split(text, '\n');
    assert parts[|parts| - 1] in parts;
  }

  lemma StandsAfter<S>(extract: string -> Option<S>, text: string, s: Scan, reports: seq<S>, p: string)
    requires Searches(extract) && Stands(extract, text, s, reports) && FirstMatchFits(extract, Complete(text + p))
    ensures
      var (next, report) := Written(extract, s, p);
      Stands(extract, text + p, next, if report.Some? then reports + [report.value] else reports)
  {
    var partial := Partial(text);
    PartialFree(text);
    SplitMore(text, p);
    FirstMatchAppend(extract, Complete(text), Complete(partial + p));
    FirstMatchFitsAppend(extract, Complete(text), Complete(partial + p));
    if !s.found {
      KeptMatch(extract, s.buf, partial, p);
      KeptPartial(s.buf, partial, p);
      assert forall x: S :: [] + [x] == [x];
    }
  }

  /** Whatever other lines measure: if the first matching line fits the buffer, it is what is
      reported, once, under every split; and if no line matches, nothing ever is. */
  lemma {:induction false} FittingMatchReported<S>(extract: string -> Option<S>, writes: seq<string>)
    requires Searches(extract) && FirstMatchFits(extract, Complete(Concat(writes)))
    ensures Stands(extract, Concat(writes), WrittenAll(extract, writes).0, WrittenAll(extract, writes).1)
  {
    if writes == [] {
      assert Split("", '\n') == [""];
    } else {
      var before, p := writes[..|writes| - 1], writes[|writes| - 1];
      SplitMore(Concat(before), p);
      FirstMatchFitsAppend(extract, Complete(Concat(before)), Complete(Partial(Concat(before)) + p));
      FittingMatchReported(extract, before);
      var (s, reports) := WrittenAll(extract, before);
      StandsAfter(extract, Concat(before), s, reports, p);
    }
  }

  /** An over-long first match has a split that loses it: the report is that of the output after it. */
  lemma LongMatchLost<S>(extract: string -> Option<S>, before: string, line: string, after: string)
    requires Partial(before) == "" && FirstMatch(extract, Complete(before)).None?
    requires Free(line, '\n') && |line| > MAX_BUFFER && extract("").None?
    ensures
      var writes := [before + line] + ["\n" + after];
      && Concat(writes) == before + line + "\n" + after
      && WrittenAll(extract, writes).1 == (match FirstMatch(extract, Complete(after)) case Some(x) => [x] case None => [])
  {
    var one, two := [before + line], [before + line] + ["\n" + after];
    assert one[..0] == [] && two[..1] == one;
    assert "" + (before + line) == before + line && Concat(one) == before + line;
    assert before + line + ("\n" + after) == before + line + "\n" + after;
    SplitMore(before, line);
    assert "" + line == line;
    NoLine(line);
    assert Complete(before) + [] == Complete(before);
    assert WrittenAll(extract, one) == (Scan("", false), []);
    assert "" + ("\n" + after) == "" + "\n" + after;
    FirstLine("", after);
    assert ([""] + Complete(after))[1..] == Complete(after);
    assert WrittenAll(extract, two[..1]) == (Scan("", false), []);
  }

  /** So a first matching line is reported under every split if and only if it fits the buffer,
      unless the output after it would be reported as the same. */
  lemma FirstMatchReportedIffFits<S>(extract: string -> Option<S>, before: string, line: string, after: string)
    requires Searches(extract) && extract("").None?
    requires Partial(before) == "" && FirstMatch(extract, Complete(before)).None?
    requires Free(line, '\n') && extract(line).Some? && FirstMatch(extract, Complete(after)) != extract(line)
    ensures (forall writes: seq<string> :: Concat(writes) == before + line + "\n" + after ==>
              WrittenAll(extract, writes).1 == [extract(line).value]) <==>
            |line| <= 65536
  {
    var text := before + line + "\n" + after;
    LinesAround(extract, before, line, after);
    if |line| <= MAX_BUFFER {
      forall writes: seq<string> | Concat(writes) == text
        ensures WrittenAll(extract, writes).1 == [extract(line).value]
      {
        FittingMatchReported(extract, writes);
      }
    } else {
      LongMatchLost(extract, before, line, after);
      assert Concat([before + line] + ["\n" + after]) == text;
    }
  }

  lemma LinesAround<S>(extract: string -> Option<S>, before: string, line: string, after: string)
    requires Partial(before) == "" && FirstMatch(extract, Complete(before)).None?
    requires Free(line, '\n') && extract(line).Some?
    ensures FirstMatch(extract, Complete(before + line + "\n" + after)) == extract(line)
    ensures FirstMatchFits(extract, Complete(before + line + "\n" + after)) <==> |line| <= MAX_BUFFER
  {
    var rest := line + "\n" + after;
    assert before + line + "\n" + after == before + rest && "" + rest == rest;
    SplitMore(before, rest);
    FirstLine(line, after);
    FirstMatchAppend(extract, Complete(before), Complete(rest));
    FirstMatchFitsAppend(extract, Complete(before), Complete(rest));
    NoMatchFits(extract, Complete(before));
  }

  lemma {:induction false} NoMatchFits<S>(extract: string -> Option<S>, lines: seq<string>)
    requires FirstMatch(extract, lines).None?
    ensures FirstMatchFits(extract, lines)
  {
    if lines != [] {
      NoMatchFits(extract, lines[1..]);
    }
  }

  /** One matching line is reported under every split if and only if it fits the buffer, however
      lines are matched. */
  lemma MatchingLineReportedIffShort<S>(extract: string -> Option<S>, line: string)
    requires Free(line, '\n') && extract(line).Some? && extract("").None?
    ensures (forall writes: seq<string> :: Concat(writes) == line + "\n" ==> WrittenAll(extract, writes).1 == [extract(line).value]) <==>
      |line| <= MAX_BUFFER
  {
    assert line + "\n" + "" == line + "\n";
    FirstLine(line, "");
    assert Complete(line + "\n") == [line] && Partial(line + "\n") == "";
    if |line| <= MAX_BUFFER {
      forall writes: seq<string> | Concat(writes) == line + "\n"
        ensures WrittenAll(extract, writes).1 == [extract(line).value]
      {
        SplitDoesNotMatter(extract, writes);
      }
    } else {
      LongLineLost(extract, line);
      assert Concat([line] + ["\n"]) == line + "\n";
    }
  }

  /** A longer line that arrives before its newline does is dropped. */
  lemma LongLineLost<S>(extract: string -> Option<S>, line: string)
    requires Free(line, '\n') && |line| > MAX_BUFFER && extract("").None?
    ensures Concat([line] + ["\n"]) == line + "\n"
    ensures WrittenAll(extract, [line] + ["\n"]).1 == []
  {
    var one, two := [line], [line] + ["\n"];
    assert one[..0] == [] && two[..1] == one;
    assert Concat([]) == "" && Concat(one) == "" + line;
    assert "" + line == line && "" + "\n" == "\n";
    SplitFree(line, '\n');
    assert WrittenAll(extract, one[..0]) == (Scan("", false), []);
    assert WrittenAll(extract, one) == (Scan("", false), []);
    assert "" + "\n" + "" == "\n";
    FirstLine("", "");
    assert Complete("\n") == [""];
    assert FirstMatch(extract, [""]) == None;
    assert WrittenAll(extract, two[..1]) == (Scan("", false), []);
  }

  // ----- standard output and standard error, sharing one channel -----

  const SHARED_CAPACITY := 2

  datatype Event = WritesOut(p: string) | WritesErr(p: string) | Receives

  /** lost counts reports that found the channel full. */
  datatype Pair<S> = Pair(out: Scan, err: Scan, outText: string, errText: string, queue: seq<S>, received: seq<S>, lost: nat)

  function Spawned<S>(): Pair<S> {
    Pair(Scan("", false), Scan("", false), "", "", [], [], 0)
  }

  function Sent<S>(s: Pair<S>, report: Option<S>): Pair<S> {
    if report.None? then s
    else if |s.queue| < SHARED_CAPACITY then s.(queue := Offered(s.queue, SHARED_CAPACITY, report.value))
    else s.(lost := s.lost + 1)
  }

  function Step<S>(extract: string -> Option<S>, s: Pair<S>, e: Event): Pair<S> {
    match e
    case WritesOut(p) =>
      var (next, report) := Written(extract, s.out, p);
      Sent(s, report).(out := next, outText := s.outText + p)
    case WritesErr(p) =>
      var (next, report) := Written(extract, s.err, p);
      Sent(s, report).(err := next, errText := s.errText + p)
    case Receives =>
      if s.queue == [] then s else s.(queue := s.queue[1..], received := s.received + [s.queue[0]])
  }

  function Play<S>(extract: string -> Option<S>, events: seq<Event>): Pair<S> {
    if events == [] then Spawned() else Step(extract, Play(extract, events[..|events| - 1]), events[|events| - 1])
  }

  function Reports<S>(s: Pair<S>): seq<S> {
    s.received + s.queue
  }

  function One(found: bool): nat {
    if found then 1 else 0
  }

  /** Two writers report at most once each, and the channel has room for two: no report is lost,
      and there are exactly as many as writers that have found their line. */
  lemma {:induction false} NoReportLost<S>(extract: string -> Option<S>, events: seq<Event>)
    ensures
      var s := Play(extract, events);
      && s.lost == 0 && |Reports(s)| == One(s.out.found) + One(s.err.found)
      && |s.queue| <= SHARED_CAPACITY == 2
  {
    if events != [] {
      NoReportLost(extract, events[..|events| - 1]);
    }
  }

  ghost predicate FromOneOf<S>(extract: string -> Option<S>, s: Pair<S>, r: S) {
    || FirstMatch(extract, Complete(s.outText)) == Some(r)
    || FirstMatch(extract, Complete(s.errText)) == Some(r)
  }

  predicate BothScannable<S>(extract: string -> Option<S>, s: Pair<S>) {
    Scannable(extract, s.outText) && Scannable(extract, s.errText)
  }

  /** Each writer of the pair stands where it would stand alone. */
  ghost predicate Alone<S>(extract: string -> Option<S>, s: Pair<S>) {
    s.out == Seen(extract, s.outText).0 && s.err == Seen(extract, s.errText).0
  }

  lemma ScannableBefore<S>(extract: string -> Option<S>, s: Pair<S>, e: Event)
    requires BothScannable(extract, Step(extract, s, e))
    ensures BothScannable(extract, s)
  {
    match e
    case WritesOut(p) => ScannablePrefix(extract, s.outText, p);
    case WritesErr(p) => ScannablePrefix(extract, s.errText, p);
    case Receives =>
  }

  lemma AloneKeeps<S>(extract: string -> Option<S>, s: Pair<S>, e: Event)
    requires BothScannable(extract, Step(extract, s, e)) && Alone(extract, s)
    ensures Alone(extract, Step(extract, s, e))
    ensures forall r :: FromOneOf(extract, s, r) ==> FromOneOf(extract, Step(extract, s, e), r)
  {
    match e
    case WritesOut(p) => WriteSeen(extract, s.outText, p);
    case WritesErr(p) => WriteSeen(extract, s.errText, p);
    case Receives =>
  }

  lemma SentReports<S>(s: Pair<S>, report: Option<S>)
    ensures Reports(Sent(s, report)) == Reports(s) || (report.Some? && Reports(Sent(s, report)) == Reports(s) + [report.value])
  {
    if report.Some? && |s.queue| < SHARED_CAPACITY {
      assert s.received + (s.queue + [report.value]) == (s.received + s.queue) + [report.value];
    }
  }

  /** A step adds at most one report, the match of the output that was written. */
  lemma NewReport<S>(extract: string -> Option<S>, s: Pair<S>, e: Event) returns (more: seq<S>)
    requires BothScannable(extract, Step(extract, s, e)) && Alone(extract, s)
    ensures Reports(Step(extract, s, e)) == Reports(s) + more
    ensures forall r :: r in more ==> FromOneOf(extract, Step(extract, s, e), r)
  {
    more := [];
    match e {
      case WritesOut(p) =>
        WriteSeen(extract, s.outText, p);
        var report := Written(extract, s.out, p).1;
        SentReports(s, report);
        if report.Some? && |s.queue| < SHARED_CAPACITY {
          more := [report.value];
        }
      case WritesErr(p) =>
        WriteSeen(extract, s.errText, p);
        var report := Written(extract, s.err, p).1;
        SentReports(s, report);
        if report.Some? && |s.queue| < SHARED_CAPACITY {
          more := [report.value];
        }
      case Receives =>
    }
  }

  /** However the two outputs interleave and however each is cut, whatever is received is the
      first complete matching line of one of them, and a writer has found its line exactly when
      its output has one. */
  lemma {:induction false} ReportsAreFirstMatches<S>(extract: string -> Option<S>, events: seq<Event>)
    requires BothScannable(extract, Play(extract, events))
    ensures Alone(extract, Play(extract, events))
    ensures forall r :: r in Reports(Play(extract, events)) ==> FromOneOf(extract, Play(extract, events), r)
  {
    if events == [] {
      assert Split("", '\n') == [""];
    } else {
      var s, e := Play(extract, events[..|events| - 1]), events[|events| - 1];
      ScannableBefore(extract, s, e);
      ReportsAreFirstMatches(extract, events[..|events| - 1]);
      AloneKeeps(extract, s, e);
      var more := NewReport(extract, s, e);
    }
  }

  // ----- the same for a pattern that is searched for -----

  ghost predicate BothFit<S>(extract: string -> Option<S>, s: Pair<S>) {
    FirstMatchFits(extract, Complete(s.outText)) && FirstMatchFits(extract, Complete(s.errText))
  }

  ghost predicate BothStand<S>(extract: string -> Option<S>, s: Pair<S>) {
    && Stands(extract, s.outText, s.out, Seen(extract, s.outText).1)
    && Stands(extract, s.errText, s.err, Seen(extract, s.errText).1)
  }

  lemma FitsBefore<S>(extract: string -> Option<S>, text: string, p: string)
    requires FirstMatchFits(extract, Complete(text + p))
    ensures FirstMatchFits(extract, Complete(text))
  {
    SplitMore(text, p);
    FirstMatchFitsAppend(extract, Complete(text), Complete(Partial(text) + p));
  }

  /** One write of a writer that stands where it should. */
  lemma StandingWrite<S>(extract: string -> Option<S>, text: string, s: Scan, p: string)
    requires Searches(extract) && FirstMatchFits(extract, Complete(text + p))
    requires Stands(extract, text, s, Seen(extract, text).1)
    ensures
      var (next, report) := Written(extract, s, p);
      && Stands(extract, text + p, next, Seen(extract, text + p).1)
      && (report.Some? ==> FirstMatch(extract, Complete(text + p)) == report)
      && (FirstMatch(extract, Complete(text)).Some? ==> FirstMatch(extract, Complete(text + p)) == FirstMatch(extract, Complete(text)))
  {
    StandsAfter(extract, text, s, Seen(extract, text).1, p);
    SplitMore(text, p);
    FirstMatchAppend(extract, Complete(text), Complete(Partial(text) + p));
  }

  lemma StandKeeps<S>(extract: string -> Option<S>, s: Pair<S>, e: Event, s': Pair<S>)
    requires Searches(extract) && s' == Step(extract, s, e) && BothFit(extract, s') && BothStand(extract, s)
    ensures BothStand(extract, s')
  {
    match e
    case WritesOut(p) =>
      assert Stands(extract, s'.outText, s'.out, Seen(extract, s'.outText).1) by {
        StandingWrite(extract, s.outText, s.out, p);
      }
    case WritesErr(p) =>
      assert Stands(extract, s'.errText, s'.err, Seen(extract, s'.errText).1) by {
        StandingWrite(extract, s.errText, s.err, p);
      }
    case Receives =>
  }

  lemma OldReportStays<S>(extract: string -> Option<S>, s: Pair<S>, e: Event, r: S)
    requires Searches(extract) && BothFit(extract, Step(extract, s, e)) && BothStand(extract, s)
    requires FromOneOf(extract, s, r)
    ensures FromOneOf(extract, Step(extract, s, e), r)
  {
    match e
    case WritesOut(p) => StandingWrite(extract, s.outText, s.out, p);
    case WritesErr(p) => StandingWrite(extract, s.errText, s.err, p);
    case Receives =>
  }

  lemma ReceivingKeepsReports<S>(extract: string -> Option<S>, s: Pair<S>)
    ensures Reports(Step(extract, s, Receives)) == Reports(s)
  {
    if s.queue != [] {
      assert (s.received + [s.queue[0]]) + s.queue[1..] == s.received + s.queue;
    }
  }

  lemma NewReportFound<S>(extract: string -> Option<S>, s: Pair<S>, e: Event, r: S)
    requires Searches(extract) && BothFit(extract, Step(extract, s, e)) && BothStand(extract, s) && !e.Receives?
    requires r in Reports(Step(extract, s, e)) && r !in Reports(s)
    ensures FromOneOf(extract, Step(extract, s, e), r)
  {
    if e.WritesOut? {
      StandingWrite(extract, s.outText, s.out, e.p);
      SentReports(s, Written(extract, s.out, e.p).1);
    } else {
      StandingWrite(extract, s.errText, s.err, e.p);
      SentReports(s, Written(extract, s.err, e.p).1);
    }
  }

  lemma BothFitBefore<S>(extract: string -> Option<S>, s: Pair<S>, e: Event)
    requires BothFit(extract, Step(extract, s, e))
    ensures BothFit(extract, s)
  {
    match e
    case WritesOut(p) => FitsBefore(extract, s.outText, p);
    case WritesErr(p) => FitsBefore(extract, s.errText, p);
    case Receives =>
  }

  /** However the two outputs interleave and however each is cut, whatever other lines measure: as
      long as the first matching line of each fits the buffer, a writer has found its line exactly
      when its output has one, and whatever is received is the first match of one of them. */
  lemma {:induction false} FittingReportsAreFirstMatches<S>(extract: string -> Option<S>, events: seq<Event>)
    requires Searches(extract) && BothFit(extract, Play(extract, events))
    ensures BothStand(extract, Play(extract, events))
    ensures forall r :: r in Reports(Play(extract, events)) ==> FromOneOf(extract, Play(extract, events), r)
  {
    if events == [] {
      assert Split("", '\n') == [""];
    } else {
      var s, e := Play(extract, events[..|events| - 1]), events[|events| - 1];
      BothFitBefore(extract, s, e);
      FittingReportsAreFirstMatches(extract, events[..|events| - 1]);
      var s' := Step(extract, s, e);
      StandKeeps(extract, s, e, s');
      forall r | r in Reports(s')
        ensures FromOneOf(extract, s', r)
      {
        ReceivingKeepsReports(extract, s);
        if r in Reports(s) {
          OldReportStays(extract, s, e, r);
        } else {
          NewReportFound(extract, s, e, r);
        }
      }
    }
  }
}
