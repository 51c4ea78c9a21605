/** Cosine similarity and the vector half of a search (internal/memory/recall.go), over the reals. */
module Cosine {
  import opened Fusion
  import opened Wrappers

  type Vector = seq<real>

  function Dot(a: Vector, b: Vector): real
    requires |a| == |b|
  {
    if a == [] then 0.0
    else
      var n := |a| - 1;
      Dot(a[..n], b[..n]) + Times(a[n], b[n])
  }

  predicate Zero(a: Vector) {
    forall i :: 0 <= i < |a| ==> a[i] == 0.0
  }

  ghost predicate IsSqrt(sqrt: real -> real) {
    forall x: real :: x >= 0.0 ==> sqrt(x) >= 0.0 && Times(sqrt(x), sqrt(x)) == x
  }

  // ----- products -----

  lemma TimesPositive(a: real, b: real)
    requires a > 0.0 && b > 0.0
    ensures Times(a, b) > 0.0
  {
  }

  lemma TimesNonNegative(a: real, b: real)
    requires a >= 0.0 && b >= 0.0
    ensures Times(a, b) >= 0.0
  {
  }

  lemma TimesNegate(a: real, b: real)
    ensures Times(-a, -b) == Times(a, b) && Times(a, -b) == -Times(a, b)
  {
  }

  lemma TimesZero(a: real)
    ensures Times(0.0, a) == 0.0 && Times(a, 0.0) == 0.0
  {
  }

  lemma Square(x: real)
    ensures Times(x, x) >= 0.0
    ensures x == 0.0 <==> Times(x, x) == 0.0
  {
    if x > 0.0 {
      TimesPositive(x, x);
    } else if x < 0.0 {
      TimesPositive(-x, -x);
      TimesNegate(x, x);
    } else {
      TimesZero(x);
    }
  }

  lemma NonNegativeFactor(a: real, b: real)
    requires a > 0.0 && Times(a, b) >= 0.0
    ensures b >= 0.0
  {
    if b < 0.0 {
      TimesPositive(a, -b);
      TimesNegate(a, b);
    }
  }

  lemma SquareGrows(a: real, b: real)
    requires 0.0 <= b < a
    ensures Times(b, b) < Times(a, a)
  {
    TimesPositive(a - b, a + b);
    assert Times(a - b, a + b) == Times(a, a) - Times(b, b);
  }

  // ----- the Cauchy-Schwarz inequality, along the accumulation -----

  lemma {:induction false} NormSquare(a: Vector)
    ensures Dot(a, a) >= 0.0
    ensures Dot(a, a) == 0.0 <==> Zero(a)
  {
    if a != [] {
      var n := |a| - 1;
      NormSquare(a[..n]);
      Square(a[n]);
      assert Zero(a) <==> Zero(a[..n]) && a[n] == 0.0;
    }
  }

  /** If d * d <= p * q, one more pair of components cannot break it. */
  lemma CrossTerm(d: real, p: real, q: real, x: real, y: real)
    requires p >= 0.0 && q >= 0.0 && Times(d, d) <= Times(p, q)
    ensures 2.0 * Times(d, Times(x, y)) <= Times(p, Times(y, y)) + Times(q, Times(x, x))
  {
    Square(x);
    Square(y);
    if p == 0.0 {
      TimesZero(q);
      Square(d);
      TimesZero(Times(x, y));
      TimesZero(Times(y, y));
      TimesNonNegative(q, Times(x, x));
    } else {
      var gap := Times(p, Times(y, y)) + Times(q, Times(x, x)) - 2.0 * Times(d, Times(x, y));
      CrossIdentity(d, p, q, x, y);
      Square(Times(p, y) - Times(d, x));
      TimesNonNegative(Times(p, q) - Times(d, d), Times(x, x));
      NonNegativeFactor(p, gap);
    }
  }

  lemma CrossIdentity(d: real, p: real, q: real, x: real, y: real)
    ensures Times(p, Times(p, Times(y, y)) + Times(q, Times(x, x)) - 2.0 * Times(d, Times(x, y))) ==
      Times(Times(p, y) - Times(d, x), Times(p, y) - Times(d, x)) + Times(Times(p, q) - Times(d, d), Times(x, x))
  {
  }

  lemma ExpandIdentity(d: real, p: real, q: real, x: real, y: real)
    ensures
      var z := Times(x, y);
      && Times(d + z, d + z) == Times(d, d) + 2.0 * Times(d, z) + Times(z, z)
      && Times(p + Times(x, x), q + Times(y, y)) ==
         Times(p, q) + Times(p, Times(y, y)) + Times(q, Times(x, x)) + Times(z, z)
  {
  }

  lemma {:induction false} CauchySchwarz(a: Vector, b: Vector)
    requires |a| == |b|
    ensures Times(Dot(a, b), Dot(a, b)) <= Times(Dot(a, a), Dot(b, b))
  {
    if a == [] {
      TimesZero(0.0);
    } else {
      var n := |a| - 1;
      CauchySchwarz(a[..n], b[..n]);
      NormSquare(a[..n]);
      NormSquare(b[..n]);
      var d, p, q, x, y := Dot(a[..n], b[..n]), Dot(a[..n], a[..n]), Dot(b[..n], b[..n]), a[n], b[n];
      CrossTerm(d, p, q, x, y);
      ExpandIdentity(d, p, q, x, y);
    }
  }

  // ----- the similarity -----

  function Similarity(a: Vector, b: Vector, sqrt: real -> real): Option<real>
    requires IsSqrt(sqrt)
  {
    if |a| != |b| || |a| == 0 then None
    else if Dot(a, a) == 0.0 || Dot(b, b) == 0.0 then None
    else
      RootsPositive(a, b, sqrt);
      Some(Clamped(Dot(a, b) / Times(sqrt(Dot(a, a)), sqrt(Dot(b, b)))))
  }

  function Clamped(sim: real): real {
    if sim < 0.0 then 0.0 else sim
  }

  lemma RootPositive(x: real, sqrt: real -> real)
    requires IsSqrt(sqrt) && x > 0.0
    ensures sqrt(x) > 0.0
  {
    Square(sqrt(x));
  }

  lemma {:induction false} RootsPositive(a: Vector, b: Vector, sqrt: real -> real)
    requires IsSqrt(sqrt) && Dot(a, a) != 0.0 && Dot(b, b) != 0.0
    ensures Times(sqrt(Dot(a, a)), sqrt(Dot(b, b))) > 0.0
  {
    NormSquare(a);
    NormSquare(b);
    RootPositive(Dot(a, a), sqrt);
    RootPositive(Dot(b, b), sqrt);
    TimesPositive(sqrt(Dot(a, a)), sqrt(Dot(b, b)));
  }

  lemma AtMostRoot(d: real, p: real)
    requires p > 0.0 && Times(d, d) <= Times(p, p)
    ensures d / p <= 1.0
  {
    if d > p {
      SquareGrows(d, p);
    }
    QuotientMonotone(d, p, p);
    assert p / p == 1.0;
  }

  lemma ProductOfSquares(r: real, s: real)
    ensures Times(Times(r, s), Times(r, s)) == Times(Times(r, r), Times(s, s))
  {
  }

  /** The similarity lies between 0 and 1, and exists exactly for non-zero vectors of one length. */
  lemma SimilarityBounds(a: Vector, b: Vector, sqrt: real -> real)
    requires IsSqrt(sqrt)
    ensures Similarity(a, b, sqrt).Some? ==> 0.0 <= Similarity(a, b, sqrt).value <= 1.0
    ensures Similarity(a, b, sqrt).Some? <==> |a| == |b| && !Zero(a) && !Zero(b)
  {
    NormSquare(a);
    NormSquare(b);
    if Similarity(a, b, sqrt).Some? {
      CauchySchwarz(a, b);
      RootsPositive(a, b, sqrt);
      ProductOfSquares(sqrt(Dot(a, a)), sqrt(Dot(b, b)));
      AtMostRoot(Dot(a, b), Times(sqrt(Dot(a, a)), sqrt(Dot(b, b))));
    }
  }

  /** The similarity itself: its square times both squared norms is the squared product of vectors
      that do not point apart, and it is zero for those that do. */
  lemma SimilarityIsExact(a: Vector, b: Vector, sqrt: real -> real)
    requires IsSqrt(sqrt) && Similarity(a, b, sqrt).Some?
    ensures
      var v, d := Similarity(a, b, sqrt).value, Dot(a, b);
      v >= 0.0 && if d <= 0.0 then v == 0.0 else Times(Times(v, v), Times(Dot(a, a), Dot(b, b))) == Times(d, d)
  {
    NormSquare(a);
    NormSquare(b);
    RootsPositive(a, b, sqrt);
    var d, p := Dot(a, b), Times(sqrt(Dot(a, a)), sqrt(Dot(b, b)));
    QuotientSign(d, p);
    if d > 0.0 {
      QuotientTimes(d, p);
      ProductOfSquares(sqrt(Dot(a, a)), sqrt(Dot(b, b)));
      ProductOfSquares(d / p, p);
    } else {
      QuotientMonotone(d, 0.0, p);
      assert 0.0 / p == 0.0;
    }
  }

  method Accumulate(a: Vector, b: Vector) returns (dot: real, na: real, nb: real)
    requires |a| == |b|
    ensures dot == Dot(a, b) && na == Dot(a, a) && nb == Dot(b, b)
  {
    dot, na, nb := 0.0, 0.0, 0.0;
    for i := 0 to |a|
      invariant dot == Dot(a[..i], b[..i]) && na == Dot(a[..i], a[..i]) && nb == Dot(b[..i], b[..i])
    {
      assert a[..i + 1][..i] == a[..i] && b[..i + 1][..i] == b[..i];
      dot := dot + Times(a[i], b[i]);
      na := na + Times(a[i], a[i]);
      nb := nb + Times(b[i], b[i]);
    }
    assert a[..|a|] == a && b[..|a|] == b;
  }

  method Cosine(a: Vector, b: Vector, sqrt: real -> real) returns (r: Option<real>)
    requires IsSqrt(sqrt)
    ensures r == Similarity(a, b, sqrt)
    ensures r.Some? ==> 0.0 <= r.value <= 1.0
    ensures r.Some? <==> |a| == |b| && !Zero(a) && !Zero(b)
  {
    SimilarityBounds(a, b, sqrt);
    if |a| != |b| || |a| == 0 {
      return None;
    }
    var dot, na, nb := Accumulate(a, b);
    if na == 0.0 || nb == 0.0 {
      return None;
    }
    RootsPositive(a, b, sqrt);
    var sim := dot / Times(sqrt(na), sqrt(nb));
    if sim < 0.0 {
      sim := 0.0;
    }
    r := Some(sim);
  }

  function Scaled(a: Vector, c: real): (b: Vector)
    ensures |b| == |a| && forall i :: 0 <= i < |a| ==> b[i] == Times(a[i], c)
  {
    seq(|a|, i requires 0 <= i < |a| => Times(a[i], c))
  }

  lemma ScaledTerms(x: real, c: real, p: real)
    ensures Times(p, c) + Times(x, Times(x, c)) == Times(p + Times(x, x), c)
    ensures Times(Times(p, c), c) + Times(Times(x, c), Times(x, c)) == Times(Times(p + Times(x, x), c), c)
  {
  }

  lemma {:induction false} ScaledDots(a: Vector, c: real)
    ensures Dot(a, Scaled(a, c)) == Times(Dot(a, a), c)
    ensures Dot(Scaled(a, c), Scaled(a, c)) == Times(Times(Dot(a, a), c), c)
  {
    if a == [] {
      TimesZero(c);
    } else {
      var n := |a| - 1;
      ScaledDots(a[..n], c);
      assert Scaled(a, c)[..n] == Scaled(a[..n], c);
      ScaledTerms(a[n], c, Dot(a[..n], a[..n]));
    }
  }

  lemma RootUnique(r: real, s: real)
    requires r >= 0.0 && s >= 0.0 && Times(r, r) == Times(s, s)
    ensures r == s
  {
    if r < s {
      SquareGrows(s, r);
    } else if s < r {
      SquareGrows(r, s);
    }
  }

  /** The root of a scaled square norm is the scaled root. */
  lemma ScaledRoot(p: real, c: real, sqrt: real -> real)
    requires IsSqrt(sqrt) && p > 0.0 && c > 0.0
    ensures Times(Times(p, c), c) > 0.0 && Times(p, c) > 0.0
    ensures Times(sqrt(p), sqrt(Times(Times(p, c), c))) == Times(p, c)
  {
    var r, q := sqrt(p), Times(Times(p, c), c);
    TimesPositive(p, c);
    TimesPositive(Times(p, c), c);
    TimesNonNegative(r, c);
    ProductOfSquares(r, c);
    Reassociate(p, c);
    RootUnique(sqrt(q), Times(r, c));
    Reassociate(r, c);
    RootTimes(r, c);
  }

  lemma Reassociate(p: real, c: real)
    ensures Times(p, Times(c, c)) == Times(Times(p, c), c)
  {
  }

  lemma RootTimes(r: real, c: real)
    ensures Times(r, Times(r, c)) == Times(Times(r, r), c)
  {
  }

  /** Vectors of the same direction are as similar as can be. */
  lemma SameDirectionIsOne(a: Vector, c: real, sqrt: real -> real)
    requires IsSqrt(sqrt) && c > 0.0 && !Zero(a)
    ensures Similarity(a, Scaled(a, c), sqrt) == Some(1.0)
  {
    NormSquare(a);
    ScaledDots(a, c);
    ScaledRoot(Dot(a, a), c, sqrt);
    var d := Times(Dot(a, a), c);
    assert d / d == 1.0;
  }

  // ----- ranking a silo's vectors -----

  datatype Embedding = Embedding(id: string, vector: Vector)

  function Hits(query: Vector, stored: seq<Embedding>, sqrt: real -> real): seq<ScoredID>
    requires IsSqrt(sqrt)
  {
    if stored == [] then []
    else
      var e := stored[|stored| - 1];
      var sim := Similarity(query, e.vector, sqrt);
      Hits(query, stored[..|stored| - 1], sqrt) + if sim.Some? then [ScoredID(e.id, sim.value)] else []
  }

  function Found(query: Vector, stored: seq<Embedding>, limit: nat, sqrt: real -> real): seq<ScoredID>
    requires IsSqrt(sqrt)
  {
    Cut(SliceStable(Hits(query, stored, sqrt), Higher), limit)
  }

  method VectorSearch(query: Vector, stored: seq<Embedding>, limit: nat, sqrt: real -> real) returns (hits: seq<ScoredID>)
    requires IsSqrt(sqrt)
    ensures hits == Found(query, stored, limit, sqrt)
  {
    hits := [];
    for i := 0 to |stored|
      invariant hits == Hits(query, stored[..i], sqrt)
    {
      assert stored[..i + 1][..i] == stored[..i];
      var sim := Cosine(query, stored[i].vector, sqrt);
      if sim.Some? {
        hits := hits + [ScoredID(stored[i].id, sim.value)];
      }
    }
    assert stored[..|stored|] == stored;
    hits := SliceStable(hits, Higher);
    if |hits| > limit {
      hits := hits[..limit];
    }
  }

  /** What is found is in falling order, no longer than asked for, and every hit is an embedding's
      similarity, between 0 and 1. */
  lemma FoundIsRanked(query: Vector, stored: seq<Embedding>, limit: nat, sqrt: real -> real)
    requires IsSqrt(sqrt)
    ensures
      var hits := Found(query, stored, limit, sqrt);
      && Descending(hits) && |hits| <= limit
      && (forall h :: h in hits ==> 0.0 <= h.score <= 1.0 && exists e :: e in stored && Shows(query, e, h, sqrt))
  {
    HitsShown(query, stored, sqrt);
    OrdersAreWeak();
    var all := Hits(query, stored, sqrt);
    var sorted := SliceStable(all, Higher);
    SliceStableSorts(all, Higher);
    SameMembers(all, sorted);
    assert forall h :: h in Cut(sorted, limit) ==> h in sorted;
  }

  /** Nothing that was cut is more similar than anything kept. */
  lemma FoundIsBest(query: Vector, stored: seq<Embedding>, limit: nat, sqrt: real -> real, cut: ScoredID, kept: ScoredID)
    requires IsSqrt(sqrt) && kept in Found(query, stored, limit, sqrt)
    requires cut in Hits(query, stored, sqrt) && cut !in Found(query, stored, limit, sqrt)
    ensures cut.score <= kept.score
  {
    OrdersAreWeak();
    var all := Hits(query, stored, sqrt);
    var sorted := SliceStable(all, Higher);
    SliceStableSorts(all, Higher);
    SameMembers(all, sorted);
    var hits := Cut(sorted, limit);
    var i :| 0 <= i < |hits| && hits[i] == kept;
    var j :| 0 <= j < |sorted| && sorted[j] == cut;
    assert sorted[i] == kept;
    assert j < |hits| ==> hits[j] in hits;
    assert !Higher(sorted[j], sorted[i]);
  }

  lemma SameMembers(a: seq<ScoredID>, b: seq<ScoredID>)
    requires multiset(a) == multiset(b)
    ensures forall h :: h in a <==> h in b
  {
    forall h
      ensures h in a <==> h in b
    {
      assert h in a <==> h in multiset(a);
      assert h in b <==> h in multiset(b);
    }
  }

  ghost predicate Shows(query: Vector, e: Embedding, h: ScoredID, sqrt: real -> real)
    requires IsSqrt(sqrt)
  {
    e.id == h.id && Similarity(query, e.vector, sqrt) == Some(h.score)
  }

  lemma {:induction false} HitsShown(query: Vector, stored: seq<Embedding>, sqrt: real -> real)
    requires IsSqrt(sqrt)
    ensures forall h :: h in Hits(query, stored, sqrt) ==>
      0.0 <= h.score <= 1.0 && exists e :: e in stored && Shows(query, e, h, sqrt)
  {
    if stored != [] {
      var front, e := stored[..|stored| - 1], stored[|stored| - 1];
      HitsShown(query, front, sqrt);
      SimilarityBounds(query, e.vector, sqrt);
      assert forall x :: x in front ==> x in stored;
      forall h | h in Hits(query, stored, sqrt)
        ensures 0.0 <= h.score <= 1.0 && exists e :: e in stored && Shows(query, e, h, sqrt)
      {
        if h !in Hits(query, front, sqrt) {
          assert e in stored && Shows(query, e, h, sqrt);
        }
      }
    }
  }

  ghost predicate DistinctIds(stored: seq<Embedding>) {
    forall i, j :: 0 <= i < j < |stored| ==> stored[i].id != stored[j].id
  }

  lemma {:induction false} HitsDistinct(query: Vector, stored: seq<Embedding>, sqrt: real -> real)
    requires IsSqrt(sqrt) && DistinctIds(stored)
    ensures Distinct(Hits(query, stored, sqrt))
  {
    if stored != [] {
      var n := |stored| - 1;
      HitsDistinct(query, stored[..n], sqrt);
      HitsShown(query, stored[..n], sqrt);
      var before := Hits(query, stored[..n], sqrt);
      forall i | 0 <= i < |before|
        ensures before[i].id != stored[n].id
      {
        assert before[i] in before;
      }
    }
  }

  /** This embedding has the query's length and points its way. */
  ghost predicate PointsAlong(query: Vector, e: Embedding) {
    |query| == |e.vector| && Dot(query, e.vector) > 0.0
  }

  /** A positive similarity is a positive product. */
  lemma {:induction false} PositiveIff(a: Vector, b: Vector, sqrt: real -> real)
    requires IsSqrt(sqrt) && |a| == |b|
    ensures Dot(a, b) > 0.0 <==> Similarity(a, b, sqrt).Some? && Similarity(a, b, sqrt).value > 0.0
  {
    CauchySchwarz(a, b);
    if Dot(a, a) == 0.0 || Dot(b, b) == 0.0 {
      TimesZero(Dot(a, a));
      TimesZero(Dot(b, b));
      Square(Dot(a, b));
    } else {
      RootsPositive(a, b, sqrt);
      QuotientSign(Dot(a, b), Times(sqrt(Dot(a, a)), sqrt(Dot(b, b))));
    }
  }

  lemma QuotientSign(x: real, y: real)
    requires y > 0.0
    ensures x / y > 0.0 <==> x > 0.0
  {
  }

  ghost predicate SomePositive(hits: seq<ScoredID>) {
    exists h :: h in hits && h.score > 0.0
  }

  ghost predicate SomePointsAlong(query: Vector, stored: seq<Embedding>) {
    exists e :: e in stored && PointsAlong(query, e)
  }

  lemma PositiveAppend(hits: seq<ScoredID>, h: ScoredID)
    ensures SomePositive(hits + [h]) <==> SomePositive(hits) || h.score > 0.0
  {
    if SomePositive(hits) {
      var x :| x in hits && x.score > 0.0;
      assert x in hits + [h];
    }
    assert h in hits + [h];
  }

  lemma PointsAppend(query: Vector, stored: seq<Embedding>, e: Embedding)
    ensures SomePointsAlong(query, stored + [e]) <==> SomePointsAlong(query, stored) || PointsAlong(query, e)
  {
    if SomePointsAlong(query, stored) {
      var x :| x in stored && PointsAlong(query, x);
      assert x in stored + [e];
    }
    assert e in stored + [e];
  }

  lemma {:induction false} PositiveHitIff(query: Vector, stored: seq<Embedding>, sqrt: real -> real)
    requires IsSqrt(sqrt)
    ensures SomePositive(Hits(query, stored, sqrt)) <==> SomePointsAlong(query, stored)
  {
    if stored != [] {
      var front, e := stored[..|stored| - 1], stored[|stored| - 1];
      PositiveHitIff(query, front, sqrt);
      assert stored == front + [e];
      PointsAppend(query, front, e);
      if |query| == |e.vector| {
        PositiveIff(query, e.vector, sqrt);
      }
      var sim := Similarity(query, e.vector, sqrt);
      if sim.Some? {
        PositiveAppend(Hits(query, front, sqrt), ScoredID(e.id, sim.value));
      }
    }
  }

  /** With one embedding an id, the vector list before the cut is one the fusion bound speaks of,
      and it has a positive score exactly if some stored embedding points the query's way. */
  lemma VectorListRankable(query: Vector, stored: seq<Embedding>, sqrt: real -> real)
    requires IsSqrt(sqrt) && DistinctIds(stored)
    ensures
      var sorted := SliceStable(Hits(query, stored, sqrt), Higher);
      Rankable(sorted) && (Max(sorted) > 0.0 <==> SomePointsAlong(query, stored))
  {
    var hits := Hits(query, stored, sqrt);
    var sorted := SliceStable(hits, Higher);
    OrdersAreWeak();
    SliceStableSorts(hits, Higher);
    HitsDistinct(query, stored, sqrt);
    DistinctKept(hits, sorted);
    SameMembers(hits, sorted);
    PositiveHitIff(query, stored, sqrt);
  }
}
