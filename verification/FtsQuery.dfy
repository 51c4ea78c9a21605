/** Turning a free-text query into a full-text match expression (internal/memory/store.go), and
    reading it back by the string syntax of section 3.1 of the SQLite FTS5 documentation. */
module FtsQuery {
  import opened Text
  import opened Wrappers

  // ----- the printer -----

  /** unicode.IsSpace. */
  predicate Space(c: char) {
    c in "\t\n\U{0B}\U{0C}\r \U{85}\U{A0}\U{1680}\U{2028}\U{2029}\U{202F}\U{205F}\U{3000}" || '\U{2000}' <= c <= '\U{200A}'
  }

  /** strings.Fields: the maximal runs without white space. */
  function Fields(s: string): (fields: seq<string>) {
    if s == "" then []
    else if Space(s[0]) then Fields(s[1..])
    else
      var rest := Fields(s[1..]);
      if |s| == 1 || Space(s[1]) then [[s[0]]] + rest
      else if rest == [] then [[s[0]]]
      else [[s[0]] + rest[0]] + rest[1..]
  }

  /** strings.ReplaceAll(f, `"`, `""`). */
  function Doubled(f: string): string {
    if f == "" then "" else (if f[0] == '"' then "\"\"" else [f[0]]) + Doubled(f[1..])
  }

  function Quoted(f: string): string {
    "\"" + Doubled(f) + "\""
  }

  function AllQuoted(fields: seq<string>): (terms: seq<string>)
    ensures |terms| == |fields| && forall i :: 0 <= i < |fields| ==> terms[i] == Quoted(fields[i])
  {
    seq(|fields|, i requires 0 <= i < |fields| => Quoted(fields[i]))
  }

  function Expr(query: string): string {
    Join(AllQuoted(Fields(query)), " OR ")
  }

  method MatchExpr(query: string) returns (expr: string)
    ensures expr == Expr(query)
    ensures Lex(expr) == Some(Alternatives(Fields(query)))
    ensures expr == "" <==> forall i :: 0 <= i < |query| ==> Space(query[i])
  {
    var fields := Fields(query);
    var terms: seq<string> := [];
    for i := 0 to |fields|
      invariant terms == AllQuoted(fields[..i])
    {
      terms := terms + ["\"" + Doubled(fields[i]) + "\""];
    }
    assert fields[..|fields|] == fields;
    expr := Join(terms, " OR ");
    ParsesBack(query);
    EmptyIffBlank(query);
  }

  // ----- the reader -----

  datatype Token = Phrase(text: string) | Word(text: string) | And | Or | Not | Symbol(c: char)

  /** The rest of a string whose opening quote has been read, and what follows it. */
  function ReadString(s: string): Option<(string, string)> {
    if s == "" then None
    else if s[0] == '"' then
      if |s| > 1 && s[1] == '"' then Prepend('"', ReadString(s[2..])) else Some(("", s[1..]))
    else Prepend(s[0], ReadString(s[1..]))
  }

  function Prepend(c: char, r: Option<(string, string)>): Option<(string, string)> {
    match r
    case None => None
    case Some((text, rest)) => Some(([c] + text, rest))
  }

  predicate Bare(c: char) {
    c > '\U{7F}' || 'a' <= c <= 'z' || 'A' <= c <= 'Z' || '0' <= c <= '9' || c == '_' || c == '\U{1A}'
  }

  function BareLength(s: string): (n: nat)
    ensures n <= |s|
    ensures forall i :: 0 <= i < n ==> Bare(s[i])
    ensures n < |s| ==> !Bare(s[n])
    ensures s != "" && Bare(s[0]) ==> n > 0
  {
    if s == "" || !Bare(s[0]) then 0 else 1 + BareLength(s[1..])
  }

  function WordToken(w: string): Token {
    if w == "AND" then And else if w == "OR" then Or else if w == "NOT" then Not else Word(w)
  }

  lemma {:induction false} ReadStringShortens(s: string)
    ensures ReadString(s).Some? ==> |ReadString(s).value.1| < |s|
    decreases |s|
  {
    if s != "" {
      if s[0] == '"' {
        if |s| > 1 && s[1] == '"' {
          ReadStringShortens(s[2..]);
        }
      } else {
        ReadStringShortens(s[1..]);
      }
    }
  }

  /** None is a syntax error. */
  function Lex(s: string): Option<seq<Token>>
    decreases |s|
  {
    if s == "" then Some([])
    else if s[0] in " \t\n\r" then Lex(s[1..])
    else if s[0] == '"' then
      ReadStringShortens(s[1..]);
      match ReadString(s[1..])
      case None => None
      case Some((text, rest)) => Before(Phrase(text), Lex(rest))
    else if Bare(s[0]) then
      var n := BareLength(s);
      Before(WordToken(s[..n]), Lex(s[n..]))
    else if s[0] in "(){}:,+*-^" then Before(Symbol(s[0]), Lex(s[1..]))
    else None
  }

  function Before(t: Token, r: Option<seq<Token>>): Option<seq<Token>> {
    if r.None? then None else Some([t] + r.value)
  }

  /** The fields as phrases, any one of which may match. */
  function Alternatives(fields: seq<string>): seq<Token> {
    if fields == [] then []
    else if |fields| == 1 then [Phrase(fields[0])]
    else [Phrase(fields[0]), Or] + Alternatives(fields[1..])
  }

  // ----- printing and reading back -----

  lemma {:induction false} ReadDoubled(f: string, rest: string)
    requires rest == "" || rest[0] != '"'
    ensures ReadString(Doubled(f) + "\"" + rest) == Some((f, rest))
    decreases |f|
  {
    var s := Doubled(f) + "\"" + rest;
    if f == "" {
      assert s == "\"" + rest;
      assert s[1..] == rest;
    } else {
      ReadDoubled(f[1..], rest);
      var tail := Doubled(f[1..]) + "\"" + rest;
      assert f == [f[0]] + f[1..];
      if f[0] == '"' {
        assert s == "\"\"" + tail;
        assert s[0] == '"' && s[1] == '"' && s[2..] == tail;
      } else {
        assert s == [f[0]] + tail;
        assert s[0] == f[0] && s[1..] == tail;
      }
    }
  }

  lemma LexQuoted(f: string, rest: string)
    requires rest == "" || rest[0] != '"'
    ensures Lex(Quoted(f) + rest) == Before(Phrase(f), Lex(rest))
  {
    var inner := Doubled(f) + "\"" + rest;
    assert Quoted(f) + rest == "\"" + inner;
    ReadDoubled(f, rest);
    LexString(inner, f, rest);
  }

  lemma LexString(inner: string, text: string, rest: string)
    requires ReadString(inner) == Some((text, rest))
    ensures Lex("\"" + inner) == Before(Phrase(text), Lex(rest))
  {
    var s := "\"" + inner;
    assert s[0] == '"' && s[1..] == inner;
  }

  lemma LexOr(rest: string)
    ensures Lex(" OR " + rest) == Before(Or, Lex(rest))
  {
    var s := " OR " + rest;
    var t := "OR " + rest;
    assert s[0] == ' ' && s[1..] == t;
    assert t[0] == 'O' && t[1] == 'R' && t[2] == ' ';
    var n := BareLength(t);
    assert Bare(t[0]) && Bare(t[1]) && !Bare(t[2]);
    assert n == 2;
    assert t[..2] == "OR";
    assert t[2..] == " " + rest;
    assert (" " + rest)[1..] == rest;
    assert Lex(" " + rest) == Lex(rest);
    assert Lex(t) == Before(Or, Lex(t[2..]));
    assert Lex(s) == Lex(s[1..]);
  }

  lemma LexOne(f: string)
    ensures Lex(Quoted(f)) == Some([Phrase(f)])
  {
    LexQuoted(f, "");
    assert Quoted(f) + "" == Quoted(f);
    assert [Phrase(f)] + [] == [Phrase(f)];
  }

  lemma PhraseThenOr(f: string, more: seq<Token>)
    ensures Before(Phrase(f), Before(Or, Some(more))) == Some([Phrase(f), Or] + more)
  {
    assert [Phrase(f)] + ([Or] + more) == [Phrase(f), Or] + more;
  }

  lemma {:induction false} LexAlternatives(fields: seq<string>)
    ensures Lex(Join(AllQuoted(fields), " OR ")) == Some(Alternatives(fields))
    decreases |fields|
  {
    var terms := AllQuoted(fields);
    if |fields| == 1 {
      LexOne(fields[0]);
      assert Join(terms, " OR ") == Quoted(fields[0]);
    } else if |fields| > 1 {
      LexAlternatives(fields[1..]);
      assert terms[1..] == AllQuoted(fields[1..]);
      var rest := Join(terms[1..], " OR ");
      LexOr(rest);
      LexQuoted(fields[0], " OR " + rest);
      assert terms[0] + " OR " + rest == terms[0] + (" OR " + rest);
      PhraseThenOr(fields[0], Alternatives(fields[1..]));
    }
  }

  /** Whatever the query holds, operators and quotes included, its expression reads as exactly its
      fields, in order, as strings with OR between them. */
  lemma ParsesBack(query: string)
    ensures Lex(Expr(query)) == Some(Alternatives(Fields(query)))
  {
    LexAlternatives(Fields(query));
  }

  /** Queries with one expression have the same fields. */
  lemma ExprInjective(a: string, b: string)
    requires Expr(a) == Expr(b)
    ensures Fields(a) == Fields(b)
  {
    ParsesBack(a);
    ParsesBack(b);
    AlternativesInjective(Fields(a), Fields(b));
  }

  lemma {:induction false} AlternativesInjective(a: seq<string>, b: seq<string>)
    requires Alternatives(a) == Alternatives(b)
    ensures a == b
    decreases |a|
  {
    if |a| > 1 && |b| > 1 {
      var x, y := Alternatives(a), Alternatives(b);
      assert x[0] == y[0];
      assert x[2..] == Alternatives(a[1..]) && y[2..] == Alternatives(b[1..]);
      AlternativesInjective(a[1..], b[1..]);
      assert a == [a[0]] + a[1..] && b == [b[0]] + b[1..];
    } else {
      AlternativesLength(a);
      AlternativesLength(b);
      assert |a| == |b|;
      if |a| == 1 {
        assert Alternatives(a)[0] == Alternatives(b)[0];
      }
    }
  }

  lemma {:induction false} AlternativesLength(fields: seq<string>)
    ensures |Alternatives(fields)| == if fields == [] then 0 else 2 * |fields| - 1
  {
    if |fields| > 1 {
      AlternativesLength(fields[1..]);
    }
  }

  // ----- fields -----

  function Dense(s: string): string {
    if s == "" then "" else if Space(s[0]) then Dense(s[1..]) else [s[0]] + Dense(s[1..])
  }

  predicate Solid(f: string) {
    f != "" && forall i :: 0 <= i < |f| ==> !Space(f[i])
  }

  lemma JoinLonger(c: char, fields: seq<string>)
    requires fields != [] && !Space(c) && forall f :: f in fields ==> Solid(f)
    ensures Join([[c] + fields[0]] + fields[1..], "") == [c] + Join(fields, "")
    ensures forall f :: f in [[c] + fields[0]] + fields[1..] ==> Solid(f)
  {
    var joined := [[c] + fields[0]] + fields[1..];
    assert fields[0] in fields && forall f :: f in fields[1..] ==> f in fields;
    assert joined[1..] == fields[1..];
    Regroup([c], fields[0], Join(fields[1..], ""));
  }

  lemma JoinMore(c: char, fields: seq<string>)
    ensures Join([[c]] + fields, "") == [c] + Join(fields, "")
  {
    assert ([[c]] + fields)[1..] == fields;
  }

  /** Fields are non-empty, hold no white space, and hold everything else, in order. */
  lemma {:induction false} FieldsKeepText(s: string)
    ensures forall f :: f in Fields(s) ==> Solid(f)
    ensures Join(Fields(s), "") == Dense(s)
  {
    if s != "" {
      FieldsKeepText(s[1..]);
      var rest := Fields(s[1..]);
      if !Space(s[0]) {
        if |s| > 1 && !Space(s[1]) && rest != [] {
          JoinLonger(s[0], rest);
        } else {
          JoinMore(s[0], rest);
        }
      }
    }
  }

  predicate Blank(s: string) {
    forall i :: 0 <= i < |s| ==> Space(s[i])
  }

  /** The text is these fields, each a maximal run without white space, with white space between. */
  ghost predicate RunsOf(s: string, fields: seq<string>)
    decreases |fields|
  {
    if fields == [] then Blank(s) else exists gap, rest :: StartsWith(s, gap, fields[0], rest) && RunsOf(rest, fields[1..])
  }

  predicate StartsWith(s: string, gap: string, f: string, rest: string) {
    s == gap + f + rest && Blank(gap) && Solid(f) && (rest == "" || Space(rest[0]))
  }

  lemma RunsStart(s: string, gap: string, f: string, rest: string, more: seq<string>)
    requires StartsWith(s, gap, f, rest) && RunsOf(rest, more)
    ensures RunsOf(s, [f] + more)
  {
    var fields := [f] + more;
    assert fields[1..] == more;
    assert StartsWith(s, gap, fields[0], rest) && RunsOf(rest, fields[1..]);
  }

  lemma StartsLater(c: char, s: string, gap: string, f: string, rest: string)
    requires Space(c) && StartsWith(s, gap, f, rest)
    ensures StartsWith([c] + s, [c] + gap, f, rest)
  {
    Regroup([c], gap, f);
    Regroup([c], gap + f, rest);
  }

  lemma GapGrows(c: char, s: string, fields: seq<string>)
    requires Space(c) && RunsOf(s, fields)
    ensures RunsOf([c] + s, fields)
  {
    if fields != [] {
      var gap, rest :| StartsWith(s, gap, fields[0], rest) && RunsOf(rest, fields[1..]);
      StartsLater(c, s, gap, fields[0], rest);
      RunsStart([c] + s, [c] + gap, fields[0], rest, fields[1..]);
      assert [fields[0]] + fields[1..] == fields;
    }
  }

  lemma RunEnds(c: char, s: string, fields: seq<string>)
    requires !Space(c) && RunsOf(s, fields) && (s == "" || Space(s[0]))
    ensures RunsOf([c] + s, [[c]] + fields)
  {
    assert [c] + s == "" + [c] + s;
    RunsStart([c] + s, "", [c], s, fields);
  }

  /** The fields are the maximal runs of the query. */
  lemma {:induction false} FieldsAreRuns(s: string)
    ensures RunsOf(s, Fields(s))
  {
    if s != "" {
      var c, behind := s[0], s[1..];
      FieldsAreRuns(behind);
      assert s == [c] + behind;
      if Space(c) {
        GapGrows(c, behind, Fields(behind));
      } else if |s| == 1 || Space(s[1]) {
        RunEnds(c, behind, Fields(behind));
      } else {
        RunGoesOn(s);
      }
    }
  }

  /** A character before a run belongs to it. */
  lemma {:induction false} RunGoesOn(s: string)
    requires |s| > 1 && !Space(s[0]) && !Space(s[1]) && RunsOf(s[1..], Fields(s[1..]))
    ensures RunsOf(s, Fields(s))
  {
    var behind := Fields(s[1..]);
    assert s[1..][0] == s[1] && !Blank(s[1..]);
    RunsShow(s[1..], behind);
    var gap, rest :| StartsWith(s[1..], gap, behind[0], rest) && RunsOf(rest, behind[1..]);
    NoGap(s[1..], gap, behind[0], rest);
    LongerRun(s, behind[0], rest);
    RunsStart(s, "", [s[0]] + behind[0], rest, behind[1..]);
  }

  lemma LongerRun(s: string, f: string, rest: string)
    requires s != "" && !Space(s[0]) && s[1..] == f + rest && Solid(f) && (rest == "" || Space(rest[0]))
    ensures StartsWith(s, "", [s[0]] + f, rest)
  {
    assert s == [s[0]] + s[1..];
  }

  lemma NoGap(s: string, gap: string, f: string, rest: string)
    requires StartsWith(s, gap, f, rest) && s != "" && !Space(s[0])
    ensures gap == "" && s == f + rest
  {
    Located(s, gap, f, rest);
    assert gap + f == f;
  }

  lemma SameFirstRun(s: string, a: seq<string>, b: seq<string>) returns (rest: string)
    requires a != [] && b != [] && RunsOf(s, a) && RunsOf(s, b)
    ensures a[0] == b[0] && RunsOf(rest, a[1..]) && RunsOf(rest, b[1..])
  {
    var gap, behind :| StartsWith(s, gap, a[0], behind) && RunsOf(behind, a[1..]);
    var gap', behind' :| StartsWith(s, gap', b[0], behind') && RunsOf(behind', b[1..]);
    StartsOnce(s, gap, a[0], behind, gap', b[0], behind');
    rest := behind;
  }

  /** And only they are. */
  lemma {:induction false} RunsAreUnique(s: string, a: seq<string>, b: seq<string>)
    requires RunsOf(s, a) && RunsOf(s, b)
    ensures a == b
    decreases |a|
  {
    if a != [] && b != [] {
      var rest := SameFirstRun(s, a, b);
      RunsAreUnique(rest, a[1..], b[1..]);
      assert a == [a[0]] + a[1..] && b == [b[0]] + b[1..];
    } else {
      RunsShow(s, a);
      RunsShow(s, b);
    }
  }

  lemma {:induction false} RunsShow(s: string, fields: seq<string>)
    requires RunsOf(s, fields)
    ensures Blank(s) <==> fields == []
  {
    if fields != [] {
      var gap, rest :| StartsWith(s, gap, fields[0], rest) && RunsOf(rest, fields[1..]);
      assert s[|gap|] == fields[0][0];
    }
  }

  lemma StartsOnce(s: string, gap: string, f: string, rest: string, gap': string, f': string, rest': string)
    requires StartsWith(s, gap, f, rest) && StartsWith(s, gap', f', rest')
    ensures f == f' && rest == rest'
  {
    Located(s, gap, f, rest);
    Located(s, gap', f', rest');
    assert !Space(s[|gap|]) && !Space(s[|gap'|]);
    assert |gap| == |gap'|;
  }

  /** Where a run is, said of the text alone. */
  lemma Located(s: string, gap: string, f: string, rest: string)
    requires StartsWith(s, gap, f, rest)
    ensures |gap| < |gap| + |f| <= |s|
    ensures forall i :: 0 <= i < |gap| ==> Space(s[i])
    ensures forall i :: |gap| <= i < |gap| + |f| ==> !Space(s[i])
    ensures |gap| + |f| < |s| ==> Space(s[|gap| + |f|])
    ensures f == s[|gap|..|gap| + |f|] && rest == s[|gap| + |f|..]
  {
    assert forall i :: 0 <= i < |gap| ==> s[i] == gap[i];
    assert forall i :: |gap| <= i < |gap| + |f| ==> s[i] == f[i - |gap|];
  }

  lemma {:induction false} EmptyIffBlank(query: string)
    ensures Expr(query) == "" <==> Fields(query) == []
    ensures Fields(query) == [] <==> forall i :: 0 <= i < |query| ==> Space(query[i])
  {
    FieldsKeepText(query);
    DenseEmpty(query);
    var terms := AllQuoted(Fields(query));
    if Fields(query) != [] {
      assert Fields(query)[0] in Fields(query);
      assert terms[0] != "";
      assert Expr(query) != "";
    }
  }

  lemma {:induction false} DenseEmpty(s: string)
    ensures Dense(s) == "" <==> forall i :: 0 <= i < |s| ==> Space(s[i])
  {
    if s != "" {
      DenseEmpty(s[1..]);
      assert forall i :: 0 < i < |s| ==> s[i] == s[1..][i - 1];
    }
  }
}
