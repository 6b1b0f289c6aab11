/**
 * Consensus aggregation: the first caption is the "centroid", the agreement
 * is the mean similarity of every caption to it, and the consensus caption is
 * the first caption whose similarity to the centroid is largest (Python's
 * max() keeps the first of equal keys). Since no caption can beat the
 * centroid's similarity to itself, the consensus caption is always the first
 * caption. The confidence is a deterministic function of caption length.
 */
module Consensus {
  import opened Schemas
  import opened Rounding
  import opened Similarity

  /** sum(xs) */
  function Sum(xs: seq<real>): real
  {
    if xs == [] then 0.0 else xs[0] + Sum(xs[1..])
  }

  lemma {:induction false} SumBounds(xs: seq<real>, lo: real, hi: real)
    requires forall i :: 0 <= i < |xs| ==> lo <= xs[i] <= hi
    ensures lo * |xs| as real <= Sum(xs) <= hi * |xs| as real
  {
    if xs != [] {
      SumBounds(xs[1..], lo, hi);
    }
  }

  /** [_semantic_similarity(centroid, c) for c in captions] */
  function SimilaritiesFromCentroid(centroid: string, captions: seq<string>): (sims: seq<real>)
    ensures |sims| == |captions|
    ensures forall i :: 0 <= i < |captions| ==> sims[i] == SemanticSimilarity(centroid, captions[i])
  {
    seq(|captions|, i requires 0 <= i < |captions| => SemanticSimilarity(centroid, captions[i]))
  }

  /** The max() keys: _semantic_similarity(c, centroid) for each caption c. */
  function SimilaritiesToCentroid(captions: seq<string>, centroid: string): (keys: seq<real>)
    ensures |keys| == |captions|
    ensures forall i :: 0 <= i < |captions| ==> keys[i] == SemanticSimilarity(captions[i], centroid)
  {
    seq(|captions|, i requires 0 <= i < |captions| => SemanticSimilarity(captions[i], centroid))
  }

  /** Index max() picks: it keeps the running best and moves only on a strictly larger key. */
  function BestIndex(keys: seq<real>): (b: nat)
    requires |keys| > 0
    ensures b < |keys|
  {
    if |keys| == 1 then 0
    else
      var last := |keys| - 1;
      var b := BestIndex(keys[..last]);
      if keys[last] > keys[b] then last else b
  }

  /** The index picked holds a largest key, and the first one of those. */
  lemma {:induction false} BestIndexIsFirstMaximum(keys: seq<real>)
    requires |keys| > 0
    ensures forall j :: 0 <= j < |keys| ==> keys[j] <= keys[BestIndex(keys)]
    ensures forall j :: 0 <= j < BestIndex(keys) ==> keys[j] < keys[BestIndex(keys)]
  {
    if |keys| > 1 {
      var last := |keys| - 1;
      BestIndexIsFirstMaximum(keys[..last]);
      assert forall j :: 0 <= j < last ==> keys[..last][j] == keys[j];
    }
  }

  /** The mean similarity to the centroid, rounded to three places. */
  function MeanSimilarity(sims: seq<real>): real
    requires sims != []
  {
    Round(Sum(sims) / |sims| as real, 3)
  }

  /** The mean of similarities in [0, 0.5] stays in [0, 0.5] after rounding. */
  lemma MeanSimilarityBounds(sims: seq<real>)
    requires sims != []
    requires forall i :: 0 <= i < |sims| ==> 0.0 <= sims[i] <= 0.5
    ensures 0.0 <= MeanSimilarity(sims) <= 0.5
  {
    var n := |sims| as real;
    SumBounds(sims, 0.0, 0.5);
    MeanBounds(Sum(sims), n, 0.0, 0.5);
    RoundWithinGrid3(Sum(sims) / n, 0.0, 0.5);
  }

  /** The agreement of a non-empty caption list: mean similarity of the first caption to each. */
  function Agreement(captions: seq<string>): (a: real)
    requires captions != []
    ensures 0.0 <= a <= 0.5
  {
    var sims := SimilaritiesFromCentroid(captions[0], captions);
    MeanSimilarityBounds(sims);
    MeanSimilarity(sims)
  }

  datatype Aggregation = Aggregation(caption: string, agreement: real)

  /** _aggregate_semantic */
  function AggregateSemantic(captions: seq<string>): (r: Result<Aggregation>)
    ensures r.Err? <==> captions == []
    ensures r.Err? ==> r.error == ValueError("No captions to aggregate")
    ensures r.Ok? ==> r.value.caption in captions && 0.0 <= r.value.agreement <= 0.5
  {
    if captions == [] then Err(ValueError("No captions to aggregate"))
    else
      var centroid := captions[0];
      var best := BestIndex(SimilaritiesToCentroid(captions, centroid));
      Ok(Aggregation(captions[best], Agreement(captions)))
  }

  /** The consensus caption is the first caption with the largest similarity to the centroid. */
  lemma FirstMaximiser(captions: seq<string>)
    requires captions != []
    ensures var keys := SimilaritiesToCentroid(captions, captions[0]);
            var k := BestIndex(keys);
            && AggregateSemantic(captions).value.caption == captions[k]
            && (forall j :: 0 <= j < |keys| ==> keys[j] <= keys[k])
            && (forall j :: 0 <= j < k ==> keys[j] < keys[k])
  {
    BestIndexIsFirstMaximum(SimilaritiesToCentroid(captions, captions[0]));
  }

  /** ... and that caption is always the centroid itself. */
  lemma ConsensusIsFirstCaption(captions: seq<string>)
    requires captions != []
    ensures AggregateSemantic(captions).value.caption == captions[0]
  {
    var centroid := captions[0];
    var keys := SimilaritiesToCentroid(captions, centroid);
    var k := BestIndex(keys);
    BestIndexIsFirstMaximum(keys);
    SelfSimilarity(centroid);
    if WordSet(centroid) == {} {
      SimilarityToWordless(captions[k], centroid);
    }
    assert keys[0] >= keys[k];
    assert k == 0;
  }

  /** Aggregating a non-empty list: the first caption, with the mean similarity to it. */
  lemma AggregateSemanticClosedForm(captions: seq<string>)
    requires captions != []
    ensures AggregateSemantic(captions) == Ok(Aggregation(captions[0], Agreement(captions)))
  {
    ConsensusIsFirstCaption(captions);
  }

  /** Captions that all have the same non-empty word set agree at the 0.5 cap. */
  lemma UnanimousAgreement(captions: seq<string>)
    requires captions != []
    requires WordSet(captions[0]) != {}
    requires forall i :: 0 <= i < |captions| ==> WordSet(captions[i]) == WordSet(captions[0])
    ensures Agreement(captions) == 0.5
  {
    var centroid := captions[0];
    var sims := SimilaritiesFromCentroid(centroid, captions);
    SelfSimilarity(centroid);
    forall i | 0 <= i < |captions| ensures sims[i] == 0.5 {
      SameWordsSameSimilarity(centroid, captions[i], centroid);
    }
    MeanOfHalves(sims);
  }

  lemma MeanOfHalves(sims: seq<real>)
    requires sims != []
    requires forall i :: 0 <= i < |sims| ==> sims[i] == 0.5
    ensures MeanSimilarity(sims) == 0.5
  {
    SumBounds(sims, 0.5, 0.5);
    MeanBounds(Sum(sims), |sims| as real, 0.5, 0.5);
    GridPoints();
  }

  /** _mock_llm_evaluation: 0.6 plus len/200, capped at 0.4, rounded. */
  function MockLlmEvaluation(caption: string): (r: real)
    ensures 0.6 <= r <= 1.0
    ensures |caption| >= 80 ==> r == 1.0
    ensures caption == "" ==> r == 0.6
  {
    var lengthScore := |caption| as real / 200.0;
    var capped := if lengthScore < 0.4 then lengthScore else 0.4;
    RoundWithinGrid3(0.6 + capped, 0.6, 1.0);
    Round(0.6 + capped, 3)
  }
}
