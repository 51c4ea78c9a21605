/** The log stream's framing and its incremental reader: writeSSE in internal/adminapi/logs.go
    against the loop in internal/adminui/static/app.js. */
module Sse {
  import opened Text

  // ----- writing -----

  function DataLines(line: string): seq<string> {
    Prefixed(Split(line, '\n'))
  }

  function Prefixed(lines: seq<string>): (r: seq<string>)
    ensures |r| == |lines| && forall i :: 0 <= i < |lines| ==> r[i] == "data: " + lines[i]
  {
    seq(|lines|, i requires 0 <= i < |lines| => "data: " + lines[i])
  }

  function Terminated(lines: seq<string>): string {
    if lines == [] then "" else Terminated(lines[..|lines| - 1]) + lines[|lines| - 1] + "\n"
  }

  /** One event: an id line, one data line per line of the record, a blank line. */
  function EventText(seqNo: nat, line: string): string {
    "id: " + Digits(seqNo) + "\n" + Terminated(DataLines(line)) + "\n"
  }

  const KEEPALIVE := ": keepalive\n\n"
  const KEEPALIVE_LINE := ": keepalive"

  function IdLine(seqNo: nat): string {
    "id: " + Digits(seqNo) + "\n"
  }

  /** Each Fprintf is one write and may fail; what went out before it stays out. */
  method WriteEvent(seqNo: nat, line: string, attempt: nat, writes: nat -> bool)
    returns (sent: string, next: nat, ok: bool)
    ensures ok ==> sent == EventText(seqNo, line)
    ensures !ok ==> sent <= EventText(seqNo, line)
    ensures (forall k :: k >= attempt ==> writes(k)) ==> ok
    ensures next >= attempt
  {
    sent, next, ok := "", attempt, writes(attempt);
    if !ok {
      return;
    }
    sent, next := IdLine(seqNo), next + 1;
    var lines := Split(line, '\n');
    ghost var data := DataLines(line);
    assert EventText(seqNo, line) == IdLine(seqNo) + Terminated(data) + "\n";
    for i := 0 to |lines|
      invariant sent == IdLine(seqNo) + Terminated(data[..i])
      invariant next >= attempt
    {
      PartSent(IdLine(seqNo), data, i);
      if !writes(next) {
        ok := false;
        return;
      }
      TerminatedNext(data, i);
      Regroup(IdLine(seqNo), Terminated(data[..i]), "data: " + lines[i] + "\n");
      sent, next := sent + ("data: " + lines[i] + "\n"), next + 1;
    }
    PartSent(IdLine(seqNo), data, |data|);
    assert data[..|lines|] == data;
    ok := writes(next);
    if ok {
      sent := sent + "\n";
    }
    next := next + 1;
  }

  lemma TerminatedNext(lines: seq<string>, i: nat)
    requires i < |lines|
    ensures Terminated(lines[..i + 1]) == Terminated(lines[..i]) + (lines[i] + "\n")
  {
    assert lines[..i + 1][..i] == lines[..i];
    Regroup(Terminated(lines[..i]), lines[i], "\n");
  }

  lemma {:induction false} PartSent(head: string, lines: seq<string>, i: nat)
    requires i <= |lines|
    ensures head + Terminated(lines[..i]) <= head + Terminated(lines) + "\n"
  {
    TerminatedPrefix(lines, i);
    var part, whole := Terminated(lines[..i]), Terminated(lines);
    assert head + part <= head + whole;
  }

  lemma {:induction false} TerminatedPrefix(lines: seq<string>, i: nat)
    requires i <= |lines|
    ensures Terminated(lines[..i]) <= Terminated(lines)
  {
    if i < |lines| {
      var n := |lines| - 1;
      TerminatedPrefix(lines[..n], i);
      assert lines[..n][..i] == lines[..i];
    } else {
      assert lines[..i] == lines;
    }
  }

  // ----- reading -----

  /** Where the first empty line starts, or the length if there is none. */
  function FirstBreak(s: string): (i: nat)
    ensures i <= |s|
    ensures i < |s| ==> i + 1 < |s| && s[i] == '\n' && s[i + 1] == '\n'
  {
    if |s| < 2 then |s|
    else if s[0] == '\n' && s[1] == '\n' then 0
    else 1 + FirstBreak(s[1..])
  }

  /** buffer.split("\n\n"). */
  function SplitEvents(s: string): (parts: seq<string>)
    ensures parts != []
    decreases |s|
  {
    var i := FirstBreak(s);
    if i == |s| then [s] else [s[..i]] + SplitEvents(s[i + 2..])
  }

  function Last<T>(s: seq<T>): T
    requires s != []
  {
    s[|s| - 1]
  }

  function Front<T>(s: seq<T>): seq<T>
    requires s != []
  {
    s[..|s| - 1]
  }

  predicate JsSpace(c: char) {
    c in "\t\n\U{0B}\U{0C}\r \U{A0}\U{1680}\U{2028}\U{2029}\U{202F}\U{205F}\U{3000}\U{FEFF}" || '\U{2000}' <= c <= '\U{200A}'
  }

  function TrimStart(s: string): string {
    if s != "" && JsSpace(s[0]) then TrimStart(s[1..]) else s
  }

  const DATA := "data:"

  /** filter(startsWith("data:")) and map(slice(5).trimStart()). */
  function DataValues(lines: seq<string>): seq<string> {
    if lines == [] then []
    else if DATA <= lines[0] then [TrimStart(lines[0][5..])] + DataValues(lines[1..])
    else DataValues(lines[1..])
  }

  function EventData(event: string): string {
    Join(DataValues(Split(event, '\n')), "\n")
  }

  /** The records the reader hands on for these complete events. */
  function Handled(events: seq<string>): seq<string> {
    if events == [] then []
    else
      var data := EventData(Last(events));
      Handled(Front(events)) + if data != "" then [data] else []
  }

  datatype Reader = Reader(buffer: string, handled: seq<string>)

  function Fed(r: Reader, chunk: string): Reader {
    var parts := SplitEvents(r.buffer + chunk);
    Reader(Last(parts), r.handled + Handled(Front(parts)))
  }

  function FedAll(r: Reader, chunks: seq<string>): Reader {
    if chunks == [] then r else Fed(FedAll(r, Front(chunks)), Last(chunks))
  }

  /** The inner loop, over the complete events of one chunk. */
  method HandleEvents(events: seq<string>) returns (handled: seq<string>)
    ensures handled == Handled(events)
  {
    handled := [];
    for j := 0 to |events|
      invariant handled == Handled(events[..j])
    {
      assert Front(events[..j + 1]) == events[..j];
      var data := EventData(events[j]);
      if data != "" {
        handled := handled + [data];
      }
    }
    assert events[..|events|] == events;
  }

  lemma FedNext(chunks: seq<string>, i: nat)
    requires i < |chunks|
    ensures FedAll(Reader("", []), chunks[..i + 1]) == Fed(FedAll(Reader("", []), chunks[..i]), chunks[i])
  {
    assert Front(chunks[..i + 1]) == chunks[..i];
  }

  /** The reader loop. */
  method ReadStream(chunks: seq<string>) returns (handled: seq<string>)
    ensures handled == FedAll(Reader("", []), chunks).handled
  {
    var buffer := "";
    handled := [];
    for i := 0 to |chunks|
      invariant Reader(buffer, handled) == FedAll(Reader("", []), chunks[..i])
    {
      FedNext(chunks, i);
      var parts := SplitEvents(buffer + chunks[i]);
      buffer := parts[|parts| - 1];
      var more := HandleEvents(parts[..|parts| - 1]);
      handled := handled + more;
    }
    assert chunks[..|chunks|] == chunks;
  }

  // ----- the reader does not see where chunks end -----

  lemma {:induction false} FirstBreakAppend(a: string, b: string)
    requires FirstBreak(a) < |a|
    ensures FirstBreak(a + b) == FirstBreak(a)
  {
    if !(a[0] == '\n' && a[1] == '\n') {
      FirstBreakAppend(a[1..], b);
      assert (a + b)[1..] == a[1..] + b;
    }
  }

  lemma FrontCons<T>(x: T, rest: seq<T>)
    requires rest != []
    ensures Front([x] + rest) == [x] + Front(rest) && Last([x] + rest) == Last(rest)
  {
  }

  lemma {:induction false} SplitEventsAppend(a: string, b: string)
    ensures SplitEvents(a + b) == Front(SplitEvents(a)) + SplitEvents(Last(SplitEvents(a)) + b)
    decreases |a|
  {
    var i := FirstBreak(a);
    if i == |a| {
      assert Front([a]) == [];
      assert [] + SplitEvents(a + b) == SplitEvents(a + b);
    } else {
      var head, rest := a[..i], a[i + 2..];
      FirstBreakAppend(a, b);
      assert (a + b)[i + 2..] == rest + b && (a + b)[..i] == head;
      SplitEventsAppend(rest, b);
      FrontCons(head, SplitEvents(rest));
      Regroup([head], Front(SplitEvents(rest)), SplitEvents(Last(SplitEvents(rest)) + b));
    }
  }

  lemma {:induction false} HandledAppend(a: seq<string>, b: seq<string>)
    ensures Handled(a + b) == Handled(a) + Handled(b)
  {
    if b == [] {
      assert a + b == a;
    } else {
      assert Front(a + b) == a + Front(b) && Last(a + b) == Last(b);
      HandledAppend(a, Front(b));
      var data := EventData(Last(b));
      Regroup(Handled(a), Handled(Front(b)), if data != "" then [data] else []);
    }
  }

  /** However the text is cut into chunks, the reader ends as if it had come in one. */
  lemma {:induction false} ChunksDoNotMatter(chunks: seq<string>)
    ensures FedAll(Reader("", []), chunks) ==
      Reader(Last(SplitEvents(Concat(chunks))), Handled(Front(SplitEvents(Concat(chunks)))))
  {
    if chunks == [] {
      assert SplitEvents("") == [""];
    } else {
      ChunksDoNotMatter(Front(chunks));
      var done := SplitEvents(Concat(Front(chunks)));
      var more := SplitEvents(Last(done) + Last(chunks));
      SplitEventsAppend(Concat(Front(chunks)), Last(chunks));
      assert Front(Front(done) + more) == Front(done) + Front(more);
      HandledAppend(Front(done), Front(more));
    }
  }

  // ----- what one event decodes to -----

  /** What the reader shows for a record: every line loses its leading white space. */
  function Shown(line: string): string {
    Join(TrimAll(Split(line, '\n')), "\n")
  }

  function TrimAll(lines: seq<string>): (r: seq<string>)
    ensures |r| == |lines|
  {
    if lines == [] then [] else [TrimStart(lines[0])] + TrimAll(lines[1..])
  }

  lemma {:induction false} PrefixedValues(lines: seq<string>)
    ensures DataValues(Prefixed(lines)) == TrimAll(lines)
  {
    if lines != [] {
      var p := Prefixed(lines);
      assert p[1..] == Prefixed(lines[1..]);
      assert p[0][..5] == DATA && p[0][5..] == " " + lines[0];
      assert (" " + lines[0])[1..] == lines[0];
      PrefixedValues(lines[1..]);
    }
  }

  /** The lines of an event, joined: the body before its blank line. */
  function Body(seqNo: nat, line: string): string {
    Join(["id: " + Digits(seqNo)] + DataLines(line), "\n")
  }

  lemma {:induction false} TerminatedIsJoin(head: string, lines: seq<string>)
    requires lines != []
    ensures head + "\n" + Terminated(lines) == Join([head] + lines, "\n") + "\n"
  {
    var n := |lines| - 1;
    var h, t := head + "\n", Terminated(lines[..n]);
    Regroup(h, t + lines[n], "\n");
    Regroup(h, t, lines[n]);
    if n == 0 {
      assert lines[..0] == [] && ([head] + lines)[1..] == lines;
      assert h + t == h;
    } else {
      TerminatedIsJoin(head, lines[..n]);
      JoinAppend([head] + lines[..n], lines[n]);
      assert [head] + lines == ([head] + lines[..n]) + [lines[n]];
    }
  }

  lemma {:induction false} JoinAppend(parts: seq<string>, last: string)
    requires parts != []
    ensures Join(parts + [last], "\n") == Join(parts, "\n") + "\n" + last
  {
    if |parts| == 1 {
      assert (parts + [last])[1..] == [last];
    } else {
      assert (parts + [last])[1..] == parts[1..] + [last];
      JoinAppend(parts[1..], last);
    }
  }

  lemma EventIsBody(seqNo: nat, line: string)
    ensures EventText(seqNo, line) == Body(seqNo, line) + "\n\n"
  {
    TerminatedIsJoin("id: " + Digits(seqNo), DataLines(line));
  }

  ghost predicate SolidLines(lines: seq<string>) {
    lines != [] && forall l :: l in lines ==> l != "" && Free(l, '\n')
  }

  /** A body of non-empty lines ends only where its blank line starts. */
  lemma {:induction false} BodyUnbroken(lines: seq<string>, after: string)
    requires SolidLines(lines) && "\n\n" <= after
    ensures FirstBreak(Join(lines, "\n") + after) == |Join(lines, "\n")|
    ensures Join(lines, "\n") != "" && Join(lines, "\n")[0] != '\n'
    decreases |lines|
  {
    assert lines[0] in lines;
    if |lines| == 1 {
      LineUnbroken(lines[0], after);
      assert after[0] == "\n\n"[0] && after[1] == "\n\n"[1];
    } else {
      var tail := Join(lines[1..], "\n");
      assert forall l :: l in lines[1..] ==> l in lines;
      BodyUnbroken(lines[1..], after);
      Regroup(lines[0] + "\n", tail, after);
      Regroup(lines[0], "\n", tail + after);
      NewlineThen(tail + after);
      LineUnbroken(lines[0], "\n" + (tail + after));
    }
  }

  lemma NewlineThen(s: string)
    requires s != "" && s[0] != '\n'
    ensures FirstBreak("\n" + s) == 1 + FirstBreak(s)
  {
    assert ("\n" + s)[1..] == s;
  }

  lemma {:induction false} LineUnbroken(line: string, after: string)
    requires Free(line, '\n')
    ensures FirstBreak(line + after) == |line| + FirstBreak(after)
  {
    if line == "" {
      assert line + after == after;
    } else {
      assert (line + after)[1..] == line[1..] + after;
      LineUnbroken(line[1..], after);
    }
  }

  lemma BodyIsSolid(seqNo: nat, line: string)
    ensures SolidLines(["id: " + Digits(seqNo)] + DataLines(line))
  {
    SplitPartsFree(line, '\n');
    var lines := ["id: " + Digits(seqNo)] + DataLines(line);
    forall i | 0 <= i < |lines|
      ensures lines[i] != "" && Free(lines[i], '\n')
    {
      if i > 0 {
        assert lines[i] == "data: " + Split(line, '\n')[i - 1];
        assert Split(line, '\n')[i - 1] in Split(line, '\n');
      }
    }
  }

  lemma EventDecodes(seqNo: nat, line: string)
    ensures EventData(Body(seqNo, line)) == Shown(line)
  {
    BodyIsSolid(seqNo, line);
    var lines := ["id: " + Digits(seqNo)] + DataLines(line);
    SplitJoin(lines, '\n');
    assert lines[1..] == DataLines(line);
    assert lines[0][0] == 'i' && DATA[0] == 'd';
    PrefixedValues(Split(line, '\n'));
  }

  // ----- the whole stream -----

  datatype Piece = Event(seqNo: nat, line: string) | Keepalive

  function PieceText(p: Piece): string {
    match p
    case Event(seqNo, line) => EventText(seqNo, line)
    case Keepalive => KEEPALIVE
  }

  function StreamText(pieces: seq<Piece>): string {
    if pieces == [] then "" else PieceText(pieces[0]) + StreamText(pieces[1..])
  }

  function ShownAll(pieces: seq<Piece>): seq<string> {
    if pieces == [] then []
    else if pieces[0].Event? && Shown(pieces[0].line) != "" then [Shown(pieces[0].line)] + ShownAll(pieces[1..])
    else ShownAll(pieces[1..])
  }

  lemma {:induction false} BodySplits(body: string, rest: string)
    requires FirstBreak(body + ("\n\n" + rest)) == |body|
    ensures
      var parts := SplitEvents(body + ("\n\n" + rest));
      && Handled(Front(parts)) == (if EventData(body) != "" then [EventData(body)] else []) + Handled(Front(SplitEvents(rest)))
      && Last(parts) == Last(SplitEvents(rest))
  {
    var s := body + ("\n\n" + rest);
    var more := SplitEvents(rest);
    assert SplitEvents(s) == [body] + more by {
      assert s[..|body|] == body && s[|body| + 2..] == rest;
    }
    FrontCons(body, more);
    HandledAppend([body], Front(more));
    assert Handled([body]) == if EventData(body) != "" then [EventData(body)] else [] by {
      assert Front([body]) == [];
    }
  }

  /** Before `rest`, this text makes the reader hand on this data, and nothing else. */
  ghost predicate Hands(text: string, data: string, rest: string) {
    var parts := SplitEvents(text + rest);
    && Handled(Front(parts)) == (if data != "" then [data] else []) + Handled(Front(SplitEvents(rest)))
    && Last(parts) == Last(SplitEvents(rest))
  }

  lemma SolidSplits(lines: seq<string>, text: string, rest: string)
    requires SolidLines(lines) && text == Join(lines, "\n") + "\n\n"
    ensures Hands(text, EventData(Join(lines, "\n")), rest)
  {
    var body := Join(lines, "\n");
    BodyUnbroken(lines, "\n\n" + rest);
    BodySplits(body, rest);
    Regroup(body, "\n\n", rest);
  }

  lemma PieceSplits(p: Piece, rest: string)
    ensures Hands(PieceText(p), if p.Event? then Shown(p.line) else "", rest)
  {
    match p
    case Event(seqNo, line) => EventSplits(seqNo, line, rest);
    case Keepalive => KeepaliveSplits(rest);
  }

  lemma EventSplits(seqNo: nat, line: string, rest: string)
    ensures Hands(EventText(seqNo, line), Shown(line), rest)
  {
    EventIsBody(seqNo, line);
    BodyIsSolid(seqNo, line);
    EventDecodes(seqNo, line);
    SolidSplits(["id: " + Digits(seqNo)] + DataLines(line), EventText(seqNo, line), rest);
  }

  lemma KeepaliveSplits(rest: string)
    ensures Hands(KEEPALIVE, "", rest)
  {
    KeepaliveIsNoData();
    OneLineSplits(KEEPALIVE_LINE, rest);
  }

  lemma OneLineSplits(line: string, rest: string)
    requires line != "" && Free(line, '\n')
    ensures Hands(line + "\n\n", EventData(line), rest)
  {
    assert Join([line], "\n") == line;
    SolidSplits([line], line + "\n\n", rest);
  }

  lemma {:induction false} KeepaliveIsNoData()
    ensures KEEPALIVE == KEEPALIVE_LINE + "\n\n" && Free(KEEPALIVE_LINE, '\n') && EventData(KEEPALIVE_LINE) == ""
  {
    SplitFree(KEEPALIVE_LINE, '\n');
    assert DATA[0] == 'd';
  }

  lemma {:induction false} StreamSplits(pieces: seq<Piece>)
    ensures Handled(Front(SplitEvents(StreamText(pieces)))) == ShownAll(pieces)
    ensures Last(SplitEvents(StreamText(pieces))) == ""
  {
    if pieces != [] {
      StreamSplits(pieces[1..]);
      PieceSplits(pieces[0], StreamText(pieces[1..]));
      assert [] + ShownAll(pieces[1..]) == ShownAll(pieces[1..]);
    }
  }

  /** For every sequence of records and keepalives and every way of cutting its text, the reader
      hands on what it would show for each record, in order, and nothing is left over. */
  lemma {:induction false} StreamRoundTrip(pieces: seq<Piece>, chunks: seq<string>)
    requires Concat(chunks) == StreamText(pieces)
    ensures FedAll(Reader("", []), chunks) == Reader("", ShownAll(pieces))
  {
    ChunksDoNotMatter(chunks);
    StreamSplits(pieces);
  }

  // ----- when a record is shown as it is -----

  ghost predicate NoIndent(line: string) {
    forall l :: l in Split(line, '\n') ==> l == "" || !JsSpace(l[0])
  }

  lemma {:induction false} TrimAllShrinks(lines: seq<string>)
    ensures |Join(TrimAll(lines), "\n")| <= |Join(lines, "\n")|
    ensures |Join(TrimAll(lines), "\n")| == |Join(lines, "\n")| <==> (forall l :: l in lines ==> l == "" || !JsSpace(l[0]))
    ensures (forall l :: l in lines ==> l == "" || !JsSpace(l[0])) ==> TrimAll(lines) == lines
  {
    if lines != [] {
      TrimShrinks(lines[0]);
      TrimAllShrinks(lines[1..]);
      assert lines == [lines[0]] + lines[1..];
      assert TrimAll(lines)[1..] == TrimAll(lines[1..]);
    }
  }

  lemma {:induction false} TrimShrinks(s: string)
    ensures |TrimStart(s)| <= |s|
    ensures |TrimStart(s)| == |s| <==> s == "" || !JsSpace(s[0])
    ensures |TrimStart(s)| == |s| ==> TrimStart(s) == s
  {
    if s != "" && JsSpace(s[0]) {
      TrimShrinks(s[1..]);
    }
  }

  /** A record comes through unchanged exactly when none of its lines is indented. */
  lemma ShownAsIsIff(line: string)
    ensures Shown(line) == line <==> NoIndent(line)
  {
    TrimAllShrinks(Split(line, '\n'));
    JoinSplit(line, '\n');
  }

  function Lines(pieces: seq<Piece>): seq<string> {
    if pieces == [] then []
    else if pieces[0].Event? then [pieces[0].line] + Lines(pieces[1..])
    else Lines(pieces[1..])
  }

  ghost predicate Plain(line: string) {
    line != "" && NoIndent(line)
  }

  lemma {:induction false} ShownAllFewer(pieces: seq<Piece>)
    ensures |ShownAll(pieces)| <= |Lines(pieces)|
  {
    if pieces != [] {
      ShownAllFewer(pieces[1..]);
    }
  }

  lemma {:induction false} ShownAllAsIsIff(pieces: seq<Piece>)
    ensures ShownAll(pieces) == Lines(pieces) <==> forall p :: p in pieces && p.Event? ==> Plain(p.line)
  {
    if pieces != [] {
      var rest := pieces[1..];
      assert forall p :: p in pieces <==> p == pieces[0] || p in rest by {
        assert pieces == [pieces[0]] + rest;
      }
      ShownAllAsIsIff(rest);
      ShownAllFewer(rest);
      if pieces[0].Event? {
        var line := pieces[0].line;
        ShownAsIsIff(line);
        if Shown(line) != "" {
          ConsEqual(Shown(line), ShownAll(rest), line, Lines(rest));
        } else {
          assert ShownAll(pieces) != Lines(pieces);
          assert !Plain(line);
        }
      }
    }
  }

  lemma ConsEqual(x: string, a: seq<string>, y: string, b: seq<string>)
    ensures [x] + a == [y] + b <==> x == y && a == b
  {
    var xs, ys := [x] + a, [y] + b;
    assert xs[0] == x && ys[0] == y && xs[1..] == a && ys[1..] == b;
  }

  /** The round trip: the records arrive exactly, in order, if and only if none of them is empty
      and none of their lines is indented. */
  lemma RecordsArriveExactlyIff(pieces: seq<Piece>, chunks: seq<string>)
    requires Concat(chunks) == StreamText(pieces)
    ensures FedAll(Reader("", []), chunks).handled == Lines(pieces) <==> forall p :: p in pieces && p.Event? ==> Plain(p.line)
  {
    StreamRoundTrip(pieces, chunks);
    ShownAllAsIsIff(pieces);
  }
}
