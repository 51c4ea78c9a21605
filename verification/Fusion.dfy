/** Fusing ranked hit lists (internal/memory/recall.go), with scores as real numbers. */
module Fusion {
  datatype ScoredID = ScoredID(id: string, score: real)

  type Hits = seq<ScoredID>

  /** Products have a name so that proofs can state facts about them one at a time. */
  function Times(x: real, y: real): real {
    x * y
  }

  // ----- what an id is worth -----

  function Max(hits: Hits): (m: real)
    ensures m >= 0.0
    ensures forall h :: h in hits ==> h.score <= m
    ensures m > 0.0 ==> exists h :: h in hits && h.score == m
  {
    if hits == [] then 0.0
    else
      var n := |hits| - 1;
      var m := Max(hits[..n]);
      assert hits == hits[..n] + [hits[n]];
      if hits[n].score > m then hits[n].score else m
  }

  /** What one hit of a list with this maximum and this length adds to its id. */
  function Weight(max: real, n: nat, score: real): (w: real)
    requires n > 0
    ensures w >= 0.0
    ensures w > 0.0 <==> max <= 0.0 || score > 0.0
  {
    if max <= 0.0 then 1.0 / (n as real)
    else if score > 0.0 then
      QuotientPositive(score, max);
      score / max
    else 0.0
  }

  lemma QuotientPositive(a: real, b: real)
    requires a > 0.0 && b > 0.0
    ensures a / b > 0.0
  {
    assert (a / b) * b == a;
  }

  lemma QuotientMonotone(a: real, b: real, c: real)
    requires a <= b && c > 0.0
    ensures a / c <= b / c
  {
    assert (b / c - a / c) * c == b - a;
  }

  function Sum(hits: Hits, max: real, n: nat, id: string): (r: real)
    requires n >= |hits|
    ensures r >= 0.0
  {
    if hits == [] then 0.0
    else
      var k := |hits| - 1;
      Sum(hits[..k], max, n, id) + if hits[k].id == id then Weight(max, n, hits[k].score) else 0.0
  }

  function Normalised(hits: Hits, id: string): (r: real)
    ensures r >= 0.0
  {
    Sum(hits, Max(hits), |hits|, id)
  }

  function Total(lists: seq<Hits>, id: string): (r: real)
    ensures r >= 0.0
  {
    if lists == [] then 0.0
    else Total(lists[..|lists| - 1], id) + Normalised(lists[|lists| - 1], id)
  }

  // ----- the share of an id in a list, without its computation -----

  lemma QuotientTimes(a: real, b: real)
    requires b > 0.0
    ensures Times(a / b, b) == a
  {
  }

  /** The best hit of a list with a positive score gets one unit, and every other the same fraction
      of it that its score is of the best score; hits without a positive score get nothing. */
  lemma {:induction false} ShareIsScoreOverBest(hits: Hits, h: ScoredID, best: ScoredID)
    requires Distinct(hits) && h in hits && best in hits && best.score > 0.0
    requires forall x :: x in hits ==> x.score <= best.score
    ensures Times(Normalised(hits, h.id), best.score) == if h.score > 0.0 then h.score else 0.0
  {
    MaxIsBest(hits, best);
    OnlyOwnHit(hits, best.score, |hits|, h);
    WeightTimes(best.score, |hits|, h.score);
  }

  lemma MaxIsBest(hits: Hits, best: ScoredID)
    requires best in hits && best.score > 0.0 && forall x :: x in hits ==> x.score <= best.score
    ensures Max(hits) == best.score
  {
  }

  lemma WeightTimes(max: real, n: nat, score: real)
    requires n > 0 && max > 0.0
    ensures Times(Weight(max, n, score), max) == if score > 0.0 then score else 0.0
  {
    QuotientTimes(score, max);
    assert Times(0.0, max) == 0.0;
  }

  /** In a list without a positive score every id has the same share, and they add up to one unit. */
  lemma {:induction false} ShareIsUniform(hits: Hits, h: ScoredID)
    requires Distinct(hits) && h in hits && forall x :: x in hits ==> x.score <= 0.0
    ensures Times(Normalised(hits, h.id), |hits| as real) == 1.0
  {
    assert Max(hits) == 0.0;
    OnlyOwnHit(hits, 0.0, |hits|, h);
    QuotientTimes(1.0, |hits| as real);
  }

  /** An id that the list does not have gets nothing from it. */
  lemma AbsentShare(hits: Hits, id: string)
    requires !Has(hits, id)
    ensures Normalised(hits, id) == 0.0
  {
    AbsentSum(hits, Max(hits), |hits|, id);
  }

  lemma {:induction false} OnlyOwnHit(hits: Hits, max: real, n: nat, h: ScoredID)
    requires Distinct(hits) && h in hits && n >= |hits|
    ensures Sum(hits, max, n, h.id) == Weight(max, n, h.score)
  {
    var k := |hits| - 1;
    var front, last := hits[..k], hits[k];
    assert hits == front + [last];
    if last == h {
      forall x | x in front
        ensures x.id != h.id
      {
        var i :| 0 <= i < k && front[i] == x;
        assert hits[i].id != hits[k].id;
      }
      AbsentSum(front, max, n, h.id);
    } else {
      OnlyOwnHit(front, max, n, h);
      var i :| 0 <= i < k && front[i] == h;
      assert hits[i].id != hits[k].id;
    }
  }

  /** The fused score of an id is the sum of its shares, list by list. */
  lemma SharesAddUp(keyword: Hits, vector: Hits, id: string)
    ensures Total([keyword, vector], id) == Normalised(keyword, id) + Normalised(vector, id)
  {
    assert [keyword, vector][..1] == [keyword] && [keyword][..0] == [];
    assert Total([keyword], id) == Total([keyword][..0], id) + Normalised(keyword, id);
  }

  /** Beside an empty list, a list keeps the order of its own scores and loses no positive one. */
  lemma {:induction false} OneListKeepsItsOrder(hits: Hits, fused: Hits, x: ScoredID, y: ScoredID)
    requires Distinct(hits) && x in hits && y in hits && x.score > y.score > 0.0
    requires IsFusion([hits, []], fused)
    ensures exists i, j :: 0 <= i < j < |fused| && fused[i].id == x.id && fused[j].id == y.id
  {
    var m := Max(hits);
    assert m >= x.score;
    var best :| best in hits && best.score == m;
    assert forall z :: z in hits ==> z.score <= best.score;
    ShareIsScoreOverBest(hits, x, best);
    ShareIsScoreOverBest(hits, y, best);
    SharesAddUp(hits, [], x.id);
    SharesAddUp(hits, [], y.id);
    AbsentShare([], x.id);
    AbsentShare([], y.id);
    var a, b := ScoredID(x.id, Normalised(hits, x.id)), ScoredID(y.id, Normalised(hits, y.id));
    LargerFactor(a.score, b.score, best.score);
    assert a in fused && b in fused;
    var i :| 0 <= i < |fused| && fused[i] == a;
    var j :| 0 <= j < |fused| && fused[j] == b;
    assert i < j;
  }

  lemma LargerFactor(a: real, b: real, c: real)
    requires c > 0.0 && Times(a, c) > Times(b, c) > 0.0
    ensures a > b > 0.0
  {
  }

  // ----- sorting -----

  /** Byte order of UTF-8 is the order of the characters' numbers. */
  predicate LexLess(a: string, b: string) {
    b != "" && (a == "" || a[0] < b[0] || (a[0] == b[0] && LexLess(a[1..], b[1..])))
  }

  lemma {:induction false} LexTotal(a: string, b: string)
    ensures a == b || LexLess(a, b) || LexLess(b, a)
    ensures !(LexLess(a, b) && LexLess(b, a)) && !LexLess(a, a)
    decreases |a|
  {
    if a != "" {
      LexTotal(a[1..], a[1..]);
      if b != "" {
        LexTotal(a[1..], b[1..]);
        assert a == [a[0]] + a[1..] && b == [b[0]] + b[1..];
      }
    }
  }

  lemma {:induction false} LexTransitive(a: string, b: string, c: string)
    requires LexLess(a, b) && LexLess(b, c)
    ensures LexLess(a, c)
    decreases |a|
  {
    if a != "" && a[0] == b[0] == c[0] {
      LexTransitive(a[1..], b[1..], c[1..]);
    }
  }

  predicate Higher(a: ScoredID, b: ScoredID) {
    a.score > b.score
  }

  predicate Ahead(a: ScoredID, b: ScoredID) {
    a.score > b.score || (a.score == b.score && LexLess(a.id, b.id))
  }

  type Less = (ScoredID, ScoredID) -> bool

  ghost predicate WeakOrder(less: Less) {
    && (forall a, b :: less(a, b) ==> !less(b, a))
    && (forall a, b, c :: !less(a, b) && !less(b, c) ==> !less(a, c))
  }

  /** sort.SliceStable: equal elements keep their places. */
  function SliceStable(s: Hits, less: Less): Hits {
    if s == [] then [] else InsertAhead(s[0], SliceStable(s[1..], less), less)
  }

  function InsertAhead(x: ScoredID, s: Hits, less: Less): Hits {
    if s == [] || !less(s[0], x) then [x] + s else [s[0]] + InsertAhead(x, s[1..], less)
  }

  ghost predicate InOrder(s: Hits, less: Less) {
    forall i, j :: 0 <= i < j < |s| ==> !less(s[j], s[i])
  }

  lemma {:induction false} InsertedInOrder(x: ScoredID, s: Hits, less: Less)
    requires WeakOrder(less) && InOrder(s, less)
    ensures InOrder(InsertAhead(x, s, less), less)
    ensures multiset(InsertAhead(x, s, less)) == multiset{x} + multiset(s)
  {
    if s != [] {
      assert s == [s[0]] + s[1..];
      if less(s[0], x) {
        InsertedInOrder(x, s[1..], less);
        var rest := InsertAhead(x, s[1..], less);
        forall i | 0 <= i < |rest|
          ensures !less(rest[i], s[0])
        {
          assert rest[i] in multiset(rest);
        }
      }
    }
  }

  lemma {:induction false} SliceStableSorts(s: Hits, less: Less)
    requires WeakOrder(less)
    ensures InOrder(SliceStable(s, less), less)
    ensures multiset(SliceStable(s, less)) == multiset(s)
  {
    if s != [] {
      SliceStableSorts(s[1..], less);
      InsertedInOrder(s[0], SliceStable(s[1..], less), less);
      assert s == [s[0]] + s[1..];
    }
  }

  lemma OrdersAreWeak()
    ensures WeakOrder(Higher) && WeakOrder(Ahead)
  {
    forall a, b | Ahead(a, b)
      ensures !Ahead(b, a)
    {
      LexTotal(a.id, b.id);
    }
    forall a, b, c | !Ahead(a, b) && !Ahead(b, c)
      ensures !Ahead(a, c)
    {
      LexTotal(a.id, b.id);
      LexTotal(b.id, c.id);
      LexTotal(a.id, c.id);
      if Ahead(a, c) && LexLess(c.id, b.id) && LexLess(b.id, a.id) {
        LexTransitive(c.id, b.id, a.id);
      }
    }
  }

  // ----- the fused list -----

  ghost predicate Distinct(s: Hits) {
    forall i, j :: 0 <= i < j < |s| ==> s[i].id != s[j].id
  }

  ghost predicate Ranked(s: Hits) {
    forall i, j :: 0 <= i < j < |s| ==> Ahead(s[i], s[j])
  }

  /** Every id with a score, once, by falling score and then by rising id. */
  ghost predicate IsFusion(lists: seq<Hits>, fused: Hits) {
    && Ranked(fused)
    && (forall h :: h in fused <==> h.score == Total(lists, h.id) && h.score > 0.0)
  }

  function Value(total: map<string, real>, id: string): real {
    if id in total then total[id] else 0.0
  }

  function Added(total: map<string, real>, id: string, w: real): map<string, real> {
    total[id := Value(total, id) + w]
  }

  ghost predicate AllPositive(total: map<string, real>) {
    forall id :: id in total ==> total[id] > 0.0
  }

  method TopScore(list: Hits) returns (maxScore: real)
    ensures maxScore == Max(list)
  {
    maxScore := 0.0;
    for j := 0 to |list|
      invariant maxScore == Max(list[..j])
    {
      assert list[..j + 1][..j] == list[..j];
      if list[j].score > maxScore {
        maxScore := list[j].score;
      }
    }
    assert list[..|list|] == list;
  }

  /** One list's round of the outer loop. */
  method AddList(total: map<string, real>, list: Hits) returns (sum: map<string, real>)
    requires AllPositive(total)
    ensures AllPositive(sum)
    ensures forall id :: Value(sum, id) == Value(total, id) + Normalised(list, id)
  {
    var maxScore := TopScore(list);
    sum := total;
    for j := 0 to |list|
      invariant AllPositive(sum)
      invariant forall id :: Value(sum, id) == Value(total, id) + Sum(list[..j], maxScore, |list|, id)
    {
      assert list[..j + 1][..j] == list[..j];
      var h := list[j];
      if maxScore <= 0.0 || h.score > 0.0 {
        sum := Added(sum, h.id, Weight(maxScore, |list|, h.score));
      }
    }
    assert list[..|list|] == list;
  }

  method FuseScores(lists: seq<Hits>) returns (fused: Hits)
    ensures IsFusion(lists, fused)
  {
    var total: map<string, real> := map[];
    for i := 0 to |lists|
      invariant AllPositive(total)
      invariant forall id :: Value(total, id) == Total(lists[..i], id)
    {
      assert lists[..i + 1][..i] == lists[..i];
      total := AddList(total, lists[i]);
    }
    assert lists[..|lists|] == lists;
    fused := Collect(total);
    SortedFusion(lists, total, fused);
    fused := SliceStable(fused, Ahead);
  }

  /** Ranges over the map in no particular order. */
  method Collect(total: map<string, real>) returns (hits: Hits)
    ensures Distinct(hits)
    ensures forall h :: h in hits <==> h.id in total && h.score == total[h.id]
  {
    hits := [];
    var left := total.Keys;
    while left != {}
      invariant left <= total.Keys && Distinct(hits)
      invariant forall h :: h in hits <==> h.id in total && h.id !in left && h.score == total[h.id]
      decreases |left|
    {
      var id :| id in left;
      ghost var before := hits;
      hits := hits + [ScoredID(id, total[id])];
      left := left - {id};
      assert forall i :: 0 <= i < |before| ==> before[i] in before;
    }
  }

  lemma SortedFusion(lists: seq<Hits>, total: map<string, real>, hits: Hits)
    requires Distinct(hits)
    requires forall h :: h in hits <==> h.id in total && h.score == total[h.id]
    requires forall id :: Value(total, id) == Total(lists, id)
    requires AllPositive(total)
    ensures IsFusion(lists, SliceStable(hits, Ahead))
  {
    var fused := SliceStable(hits, Ahead);
    OrdersAreWeak();
    SliceStableSorts(hits, Ahead);
    forall h
      ensures h in fused <==> h in hits
    {
      assert h in fused <==> h in multiset(fused);
      assert h in hits <==> h in multiset(hits);
    }
    DistinctKept(hits, fused);
    forall i, j | 0 <= i < j < |fused|
      ensures Ahead(fused[i], fused[j])
    {
      LexTotal(fused[i].id, fused[j].id);
    }
  }

  lemma DistinctKept(a: Hits, b: Hits)
    requires Distinct(a) && multiset(a) == multiset(b)
    ensures Distinct(b)
  {
    forall i, j | 0 <= i < j < |b|
      ensures b[i].id != b[j].id
    {
      if b[i].id == b[j].id {
        assert b[i] in multiset(b) && b[j] in multiset(b);
        assert b[i] in a && b[j] in a;
        assert b[i] == b[j];
        TwiceInMultiset(b, i, j);
        OnceInMultiset(a, b[i]);
      }
    }
  }

  lemma TwiceInMultiset(s: Hits, i: nat, j: nat)
    requires i < j < |s| && s[i] == s[j]
    ensures multiset(s)[s[i]] >= 2
  {
    assert s == s[..i] + [s[i]] + s[i + 1..j] + [s[j]] + s[j + 1..];
  }

  lemma OnceInMultiset(s: Hits, h: ScoredID)
    requires Distinct(s) && h in s
    ensures multiset(s)[h] == 1
  {
    var i :| 0 <= i < |s| && s[i] == h;
    assert s == s[..i] + [h] + s[i + 1..];
    assert h !in s[..i] && h !in s[i + 1..];
  }

  /** The result does not depend on the order in which the map was ranged over. */
  lemma FusionUnique(lists: seq<Hits>, a: Hits, b: Hits)
    requires IsFusion(lists, a) && IsFusion(lists, b)
    ensures a == b
  {
    RankedUnique(a, b);
  }

  lemma {:induction false} RankedUnique(a: Hits, b: Hits)
    requires Ranked(a) && Ranked(b)
    requires forall h :: h in a <==> h in b
    ensures a == b
  {
    assert a != [] ==> a[0] in a;
    assert b != [] ==> b[0] in b;
    if a != [] && b != [] {
      OrdersAreWeak();
      forall h
        ensures h in a[1..] <==> h in b[1..]
      {
        TailMembers(a, h);
        TailMembers(b, h);
      }
      RankedUnique(a[1..], b[1..]);
      assert a == [a[0]] + a[1..] && b == [b[0]] + b[1..];
    }
  }

  lemma TailMembers(s: Hits, h: ScoredID)
    requires s != [] && Ranked(s)
    ensures h in s[1..] <==> h in s && h != s[0]
  {
    OrdersAreWeak();
    assert s == [s[0]] + s[1..];
  }

  // ----- cutting the lists before fusing them -----

  function Cut(hits: Hits, limit: nat): Hits {
    if |hits| > limit then hits[..limit] else hits
  }

  function CutAll(lists: seq<Hits>, limit: nat): (r: seq<Hits>)
    ensures |r| == |lists|
  {
    if lists == [] then [] else CutAll(lists[..|lists| - 1], limit) + [Cut(lists[|lists| - 1], limit)]
  }

  predicate Has(hits: Hits, id: string) {
    exists h :: h in hits && h.id == id
  }

  ghost predicate Descending(hits: Hits) {
    InOrder(hits, Higher)
  }

  /** A list as a search returns it: best first, each id once. */
  ghost predicate Rankable(hits: Hits) {
    Descending(hits) && Distinct(hits)
  }

  /** The normalised score at which the list was cut, for the ids behind the cut. */
  function CutOff(hits: Hits, limit: nat, id: string): real {
    if limit < |hits| && Has(hits[limit..], id) then Weight(Max(hits), |hits|, hits[limit].score) else 0.0
  }

  function CutOffs(lists: seq<Hits>, limit: nat, id: string): real {
    if lists == [] then 0.0
    else CutOffs(lists[..|lists| - 1], limit, id) + CutOff(lists[|lists| - 1], limit, id)
  }

  /** A list without a positive score shares one unit among its hits, so a properly cut one gives
      each hit it keeps more than before. */
  predicate Uniform(hits: Hits, limit: nat) {
    Max(hits) <= 0.0 && 0 < limit < |hits|
  }

  function Raise(hits: Hits, limit: nat, id: string): (r: real)
    ensures r >= 0.0
  {
    if Uniform(hits, limit) && Has(hits[..limit], id) then
      ReciprocalFalls(limit, |hits|);
      1.0 / (limit as real) - 1.0 / (|hits| as real)
    else 0.0
  }

  function Raises(lists: seq<Hits>, limit: nat, id: string): real {
    if lists == [] then 0.0 else Raises(lists[..|lists| - 1], limit, id) + Raise(lists[|lists| - 1], limit, id)
  }

  lemma {:induction false} SumSplit(a: Hits, b: Hits, max: real, n: nat, id: string)
    requires n >= |a + b|
    ensures Sum(a + b, max, n, id) == Sum(a, max, n, id) + Sum(b, max, n, id)
    decreases |b|
  {
    if b == [] {
      assert a + b == a;
    } else {
      var k := |b| - 1;
      assert (a + b)[..|a + b| - 1] == a + b[..k];
      SumSplit(a, b[..k], max, n, id);
    }
  }

  lemma {:induction false} LengthIrrelevant(hits: Hits, max: real, n: nat, m: nat, id: string)
    requires n >= |hits| && m >= |hits| && max > 0.0
    ensures Sum(hits, max, n, id) == Sum(hits, max, m, id)
  {
    if hits != [] {
      LengthIrrelevant(hits[..|hits| - 1], max, n, m, id);
    }
  }

  lemma WeightMonotone(max: real, n: nat, a: real, b: real)
    requires n > 0 && max > 0.0 && a <= b
    ensures Weight(max, n, a) <= Weight(max, n, b)
  {
    if a > 0.0 {
      QuotientMonotone(a, b, max);
    }
  }

  lemma {:induction false} SumAtMost(hits: Hits, max: real, n: nat, id: string, top: real)
    requires n > 0 && n >= |hits| && max > 0.0 && Distinct(hits) && forall h :: h in hits ==> h.score <= top
    ensures Sum(hits, max, n, id) <= if Has(hits, id) then Weight(max, n, top) else 0.0
  {
    if hits != [] {
      var k := |hits| - 1;
      var front, h := hits[..k], hits[k];
      assert hits == front + [h];
      SumAtMost(front, max, n, id, top);
      if h.id == id {
        assert !Has(front, id);
        WeightMonotone(max, n, h.score, top);
      } else {
        assert Has(hits, id) <==> Has(front, id);
      }
    }
  }

  lemma CutKeepsMax(hits: Hits, limit: nat)
    requires Rankable(hits) && Max(hits) > 0.0 && 0 < limit < |hits|
    ensures Max(hits[..limit]) == Max(hits)
  {
    var top := hits[0];
    assert top in hits && hits[..limit][0] == top;
    assert top in hits[..limit];
    forall i | 0 <= i < |hits|
      ensures hits[i].score <= top.score
    {
      if i > 0 {
        assert !Higher(hits[i], hits[0]);
      }
    }
    assert forall h :: h in hits[..limit] ==> h in hits;
  }

  lemma {:induction false} KeptSum(hits: Hits, limit: nat, id: string)
    requires Rankable(hits) && Max(hits) > 0.0 && limit < |hits|
    ensures Normalised(hits[..limit], id) == Sum(hits[..limit], Max(hits), |hits|, id)
  {
    if limit > 0 {
      CutKeepsMax(hits, limit);
      LengthIrrelevant(hits[..limit], Max(hits), |hits|, limit, id);
    } else {
      assert hits[..0] == [];
    }
  }

  lemma GoneSum(hits: Hits, limit: nat, id: string)
    requires Rankable(hits) && Max(hits) > 0.0 && limit < |hits|
    ensures Sum(hits[limit..], Max(hits), |hits|, id) <= CutOff(hits, limit, id)
  {
    var gone := hits[limit..];
    forall i | 0 <= i < |gone|
      ensures gone[i].score <= hits[limit].score
    {
      assert gone[i] == hits[limit + i];
      assert i > 0 ==> !Higher(hits[limit + i], hits[limit]);
    }
    SumAtMost(gone, Max(hits), |hits|, id, hits[limit].score);
  }

  lemma PositiveCutBound(hits: Hits, limit: nat, id: string)
    requires Rankable(hits) && Max(hits) > 0.0 && limit < |hits|
    ensures 0.0 <= Normalised(hits, id) - Normalised(hits[..limit], id) <= CutOff(hits, limit, id)
  {
    KeptSum(hits, limit, id);
    GoneSum(hits, limit, id);
    SumAt(hits, limit, Max(hits), |hits|, id);
    var kept, gone := Sum(hits[..limit], Max(hits), |hits|, id), Sum(hits[limit..], Max(hits), |hits|, id);
    assert Normalised(hits, id) == kept + gone;
  }

  lemma {:induction false} UniformSum(hits: Hits, n: nat, id: string)
    requires Distinct(hits) && n >= |hits| && n > 0
    ensures Sum(hits, 0.0, n, id) == if Has(hits, id) then 1.0 / (n as real) else 0.0
  {
    if hits != [] {
      var front, h := hits[..|hits| - 1], hits[|hits| - 1];
      assert hits == front + [h];
      UniformSum(front, n, id);
      if h.id == id {
        assert h in hits && !Has(front, id);
      } else {
        assert Has(hits, id) <==> Has(front, id);
      }
    }
  }

  lemma HasSplits(hits: Hits, limit: nat, id: string)
    requires Distinct(hits) && limit <= |hits|
    ensures Has(hits, id) <==> Has(hits[..limit], id) || Has(hits[limit..], id)
    ensures !(Has(hits[..limit], id) && Has(hits[limit..], id))
  {
    assert hits == hits[..limit] + hits[limit..];
    assert forall i :: 0 <= i < limit ==> hits[..limit][i] == hits[i];
    assert forall i :: limit <= i < |hits| ==> hits[limit..][i - limit] == hits[i];
  }

  lemma UniformCut(hits: Hits, limit: nat, id: string)
    requires Distinct(hits) && Max(hits) == 0.0 && limit < |hits|
    ensures -Raise(hits, limit, id) <= Normalised(hits, id) - Normalised(hits[..limit], id) <= CutOff(hits, limit, id)
    ensures Has(hits[..limit], id) ==> Normalised(hits, id) - Normalised(hits[..limit], id) == -Raise(hits, limit, id)
  {
    HasSplits(hits, limit, id);
    UniformSum(hits, |hits|, id);
    UniformKept(hits, limit, id);
  }

  lemma UniformKept(hits: Hits, limit: nat, id: string)
    requires Distinct(hits) && Max(hits) == 0.0 && limit < |hits|
    ensures Normalised(hits[..limit], id) == if limit > 0 && Has(hits[..limit], id) then 1.0 / (limit as real) else 0.0
  {
    var kept := hits[..limit];
    assert forall h :: h in kept ==> h in hits;
    assert Max(kept) == 0.0;
    if limit > 0 {
      UniformSum(kept, limit, id);
    } else {
      assert kept == [];
    }
  }

  /** What cutting any list as a search returns it does to an id's share: no more is lost than the
      normalised score at the cut, and nothing gained unless the list has no positive score. */
  lemma ListCutBound(hits: Hits, limit: nat, id: string)
    requires Rankable(hits)
    ensures -Raise(hits, limit, id) <= Normalised(hits, id) - Normalised(Cut(hits, limit), id) <= CutOff(hits, limit, id)
  {
    if limit < |hits| {
      assert Cut(hits, limit) == hits[..limit];
      if Max(hits) > 0.0 {
        PositiveCutBound(hits, limit, id);
      } else {
        UniformCut(hits, limit, id);
      }
    }
  }

  predicate OnlyLowers(hits: Hits, limit: nat, id: string) {
    0.0 <= Normalised(hits, id) - Normalised(Cut(hits, limit), id) <= CutOff(hits, limit, id)
  }

  /** Cutting lowers every id's share, and by no more than the normalised score at the cut, if and
      only if the list has a positive score, or is not cut at all, or wholly. */
  lemma CutOnlyLowersIff(hits: Hits, limit: nat)
    requires Rankable(hits)
    ensures (forall id :: OnlyLowers(hits, limit, id)) <==> Max(hits) > 0.0 || limit == 0 || limit >= |hits|
  {
    if Uniform(hits, limit) {
      var id := hits[0].id;
      assert hits[..limit][0] == hits[0] && hits[0] in hits[..limit];
      UniformCut(hits, limit, id);
      ReciprocalFalls(limit, |hits|);
      assert !OnlyLowers(hits, limit, id);
    } else {
      forall id
        ensures OnlyLowers(hits, limit, id)
      {
        ListCutBound(hits, limit, id);
      }
    }
  }

  lemma SumAt(hits: Hits, k: nat, max: real, n: nat, id: string)
    requires k <= |hits| <= n
    ensures Sum(hits, max, n, id) == Sum(hits[..k], max, n, id) + Sum(hits[k..], max, n, id)
  {
    assert hits == hits[..k] + hits[k..];
    SumSplit(hits[..k], hits[k..], max, n, id);
  }

  /** Cutting every list to what was fetched lowers the fused score of an id by at most the
      normalised scores at which the lists that held it further down were cut, and raises it only
      by what lists without a positive score give to what they keep. */
  lemma {:induction false} TruncationBound(lists: seq<Hits>, limit: nat, id: string)
    requires forall list :: list in lists ==> Rankable(list)
    ensures -Raises(lists, limit, id) <= Total(lists, id) - Total(CutAll(lists, limit), id) <= CutOffs(lists, limit, id)
    ensures (forall list :: list in lists ==> !Uniform(list, limit)) ==> Raises(lists, limit, id) == 0.0
  {
    if lists != [] {
      var front, last := lists[..|lists| - 1], lists[|lists| - 1];
      assert forall list :: list in front ==> list in lists;
      TruncationBound(front, limit, id);
      ListCutBound(last, limit, id);
      var cut := CutAll(front, limit);
      assert (cut + [Cut(last, limit)])[..|cut|] == cut;
    }
  }

  lemma {:induction false} AbsentSum(hits: Hits, max: real, n: nat, id: string)
    requires n >= |hits| && !Has(hits, id)
    ensures Sum(hits, max, n, id) == 0.0
  {
    if hits != [] {
      var k := |hits| - 1;
      assert hits[k] in hits && forall h :: h in hits[..k] ==> h in hits;
      AbsentSum(hits[..k], max, n, id);
    }
  }

  lemma {:induction false} AbsentTotal(lists: seq<Hits>, id: string)
    requires forall list :: list in lists ==> !Has(list, id)
    ensures Total(lists, id) == 0.0
  {
    if lists != [] {
      var front, last := lists[..|lists| - 1], lists[|lists| - 1];
      assert last in lists && forall list :: list in front ==> list in lists;
      AbsentTotal(front, id);
      AbsentSum(last, Max(last), |last|, id);
    }
  }

  /** An id that no fetched list shows has a full score no higher than the sum of the cut-offs. */
  lemma MissedIdIsWeak(lists: seq<Hits>, limit: nat, id: string)
    requires forall list :: list in lists ==> Rankable(list)
    requires forall list :: list in CutAll(lists, limit) ==> !Has(list, id)
    ensures Total(lists, id) <= CutOffs(lists, limit, id)
  {
    TruncationBound(lists, limit, id);
    AbsentTotal(CutAll(lists, limit), id);
  }

  /** A lead larger than the other id's cut-offs, and than what cut lists without a positive score
      added to it, is a lead in the full ranking too. */
  lemma {:induction false} ClearLeadSurvives(lists: seq<Hits>, limit: nat, a: string, b: string)
    requires forall list :: list in lists ==> Rankable(list)
    requires Total(CutAll(lists, limit), a) - Total(CutAll(lists, limit), b) > CutOffs(lists, limit, b) + Raises(lists, limit, a)
    ensures Ahead(ScoredID(a, Total(lists, a)), ScoredID(b, Total(lists, b)))
  {
    TruncationBound(lists, limit, a);
    TruncationBound(lists, limit, b);
  }

  lemma ReciprocalFalls(a: nat, b: nat)
    requires 0 < a < b
    ensures 1.0 / (a as real) > 1.0 / (b as real)
  {
    var x, y := a as real, b as real;
    QuotientPositive(y - x, x * y);
    assert 1.0 / x - 1.0 / y == (y - x) / (x * y) by {
      assert (1.0 / x) * x == 1.0 && (1.0 / y) * y == 1.0;
      CommonDenominator(x, y, 1.0 / x, 1.0 / y);
    }
  }

  lemma CommonDenominator(x: real, y: real, p: real, q: real)
    requires x > 0.0 && y > 0.0 && p * x == 1.0 && q * y == 1.0
    ensures x * y > 0.0 && p - q == (y - x) / (x * y)
  {
    calc {
      (p - q) * (x * y);
    ==
      (p * x) * y - (q * y) * x;
    ==
      y - x;
    }
  }

  // ----- what recall shows -----

  const CANDIDATE_FACTOR := 4
  const DEFAULT_LIMIT := 10

  function RecallLimit(limit: int): nat {
    if limit <= 0 then DEFAULT_LIMIT else limit
  }

  /** keyword and vector are the searches' whole results; each returns only what is fetched. */
  function Fetched(keyword: Hits, vector: Hits, limit: int): seq<Hits> {
    CutAll([keyword, vector], RecallLimit(limit) * CANDIDATE_FACTOR)
  }

  ghost predicate RecallShows(keyword: Hits, vector: Hits, limit: int, shown: Hits) {
    exists fused :: IsFusion(Fetched(keyword, vector, limit), fused) && shown == Cut(fused, RecallLimit(limit))
  }

  method RankForRecall(keyword: Hits, vector: Hits, limit: int) returns (shown: Hits)
    ensures RecallShows(keyword, vector, limit, shown)
  {
    var n := limit;
    if n <= 0 {
      n := DEFAULT_LIMIT;
    }
    var fetch := n * CANDIDATE_FACTOR;
    var fused := FuseScores([Cut(keyword, fetch), Cut(vector, fetch)]);
    CutBoth(keyword, vector, fetch);
    assert IsFusion(Fetched(keyword, vector, limit), fused);
    shown := fused;
    if |shown| > n {
      shown := shown[..n];
    }
    assert shown == Cut(fused, RecallLimit(limit));
  }

  lemma CutBoth(a: Hits, b: Hits, limit: nat)
    ensures CutAll([a, b], limit) == [Cut(a, limit), Cut(b, limit)]
  {
    assert [a, b][..1] == [a] && [a][..0] == [];
    assert CutAll([a], limit) == CutAll([a][..0], limit) + [Cut(a, limit)];
  }

  /** Recall asks each search for four times what it shows, and shows ten unless told otherwise. */
  lemma RecallFetchesFourTimes(keyword: Hits, vector: Hits, limit: int, shown: Hits)
    ensures
      var n: nat := if limit > 0 then limit else 10;
      RecallShows(keyword, vector, limit, shown) <==>
        exists fused :: IsFusion([Cut(keyword, 4 * n), Cut(vector, 4 * n)], fused) && shown == Cut(fused, n)
  {
    CutBoth(keyword, vector, RecallLimit(limit) * CANDIDATE_FACTOR);
  }

  /** An id that recall does not show outranks one that it does by no more than the normalised
      scores at which the lists were cut before it, but for the raises of lists without a positive
      score. */
  lemma {:induction false} HiddenIsAtMostCutOffsBetter(keyword: Hits, vector: Hits, limit: int, shown: Hits, a: ScoredID, b: string)
    requires Rankable(keyword) && Rankable(vector)
    requires RecallShows(keyword, vector, limit, shown) && a in shown && !Has(shown, b)
    ensures
      var lists, fetch := [keyword, vector], RecallLimit(limit) * CANDIDATE_FACTOR;
      Total(lists, b) <= Total(lists, a.id) + CutOffs(lists, fetch, b) + Raises(lists, fetch, a.id)
  {
    var lists, fetch := [keyword, vector], RecallLimit(limit) * CANDIDATE_FACTOR;
    var fused :| IsFusion(CutAll(lists, fetch), fused) && shown == Cut(fused, RecallLimit(limit));
    ShownAhead(CutAll(lists, fetch), fused, RecallLimit(limit), a, b);
    TruncationBound(lists, fetch, a.id);
    TruncationBound(lists, fetch, b);
  }

  lemma {:induction false} ShownAhead(lists: seq<Hits>, fused: Hits, n: nat, a: ScoredID, b: string)
    requires IsFusion(lists, fused) && a in Cut(fused, n) && !Has(Cut(fused, n), b)
    ensures a.score == Total(lists, a.id) >= Total(lists, b)
  {
    var i :| 0 <= i < |Cut(fused, n)| && Cut(fused, n)[i] == a;
    assert fused[i] == a && a in fused;
    var hidden := ScoredID(b, Total(lists, b));
    if hidden.score > 0.0 {
      assert hidden in fused;
      var j :| 0 <= j < |fused| && fused[j] == hidden;
      assert forall k :: 0 <= k < |Cut(fused, n)| ==> Cut(fused, n)[k] in Cut(fused, n) && Cut(fused, n)[k] == fused[k];
      assert Ahead(fused[i], fused[j]);
    }
  }
}
