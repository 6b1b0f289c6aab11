/**
 * The word-overlap similarity the engine uses everywhere: the number of
 * distinct lower-cased words two captions share, divided by the SUM of their
 * distinct-word counts (at least 1), rounded to three places. Because the
 * shared words are at most the smaller of the two counts, the value never
 * exceeds one half, and a non-empty caption scores exactly one half against
 * itself.
 */
module Similarity {
  import opened Text
  import opened Rounding

  /** set(s.lower().split()) */
  function WordSet(s: string): set<string>
  {
    set w | w in Split(Lower(s))
  }

  /** max(n, 1) */
  function AtLeastOne(n: nat): (r: nat)
    ensures r >= 1 && r >= n
    ensures r == n || r == 1
  {
    if n > 1 then n else 1
  }

  /** _semantic_similarity */
  function SemanticSimilarity(a: string, b: string): (r: real)
    ensures 0.0 <= r <= 0.5
  {
    var wa, wb := WordSet(a), WordSet(b);
    var overlap := |wa * wb|;
    var total := AtLeastOne(|wa| + |wb|);
    OverlapAtMostHalf(wa, wb);
    var raw := overlap as real / total as real;
    FractionAtMostHalf(overlap as real, total as real);
    RoundWithinGrid3(raw, 0.0, 0.5);
    Round(raw, 3)
  }

  lemma IntersectionSmaller<T>(a: set<T>, b: set<T>)
    ensures |a * b| <= |a|
  {
    assert a * b <= a;
    SubsetCardinality(a * b, a);
  }

  lemma {:induction false} SubsetCardinality<T>(s: set<T>, t: set<T>)
    requires s <= t
    ensures |s| <= |t|
  {
    if s != {} {
      var x :| x in s;
      SubsetCardinality(s - {x}, t - {x});
    }
  }

  /** Twice the overlap never exceeds the sum of the two sizes. */
  lemma OverlapAtMostHalf<T>(a: set<T>, b: set<T>)
    ensures 2 * |a * b| <= |a| + |b|
  {
    IntersectionSmaller(a, b);
    IntersectionSmaller(b, a);
    assert b * a == a * b;
  }

  lemma FractionAtMostHalf(n: real, d: real)
    requires 0.0 <= n && 2.0 * n <= d && d > 0.0
    ensures 0.0 <= n / d <= 0.5
  {
  }

  /** The measure does not depend on the order of its arguments. */
  lemma SimilaritySymmetric(a: string, b: string)
    ensures SemanticSimilarity(a, b) == SemanticSimilarity(b, a)
  {
    assert WordSet(a) * WordSet(b) == WordSet(b) * WordSet(a);
  }

  /** A caption scores one half against itself, or zero when it has no words. */
  lemma SelfSimilarity(c: string)
    ensures WordSet(c) != {} ==> SemanticSimilarity(c, c) == 0.5
    ensures WordSet(c) == {} ==> SemanticSimilarity(c, c) == 0.0
  {
    var w := WordSet(c);
    assert w * w == w;
    GridPoints();
    if w != {} {
      var n := |w| as real;
      assert AtLeastOne(|w| + |w|) as real == 2.0 * n;
      Half(n);
    }
  }

  /** Only the word set of a caption matters. */
  lemma SameWordsSameSimilarity(a: string, b: string, c: string)
    requires WordSet(b) == WordSet(c)
    ensures SemanticSimilarity(a, b) == SemanticSimilarity(a, c)
  {
  }

  lemma Half(n: real)
    requires n > 0.0
    ensures n / (2.0 * n) == 0.5
  {
  }

  /** Against a caption without words every caption scores zero. */
  lemma SimilarityToWordless(a: string, c: string)
    requires WordSet(c) == {}
    ensures SemanticSimilarity(a, c) == 0.0
  {
    assert WordSet(a) * WordSet(c) == {};
    GridPoints();
  }
}
