/**
 The bookkeeping `get_loc_features` does on the label vector a density-based
 clustering returns: one label per nodule, a cluster id >= 0 or -1 for noise.
 */
module Clusters {
  import opened Stats

  const Noise: int := -1

  /** Largest label (numpy `max` of the labels). The labels are integers, so
      this is the `int` counterpart of `Stats.Max`, which works on reals. */
  function MaxLabel(labels: seq<int>): (m: int)
    requires |labels| > 0
    ensures m in labels
    ensures forall i :: 0 <= i < |labels| ==> labels[i] <= m
  {
    if |labels| == 1 then labels[0]
    else
      var front := MaxLabel(labels[..|labels| - 1]);
      assert front in labels[..|labels| - 1];
      var last := labels[|labels| - 1];
      if last > front then last else front
  }

  /** Number of nodules carrying label `c`. */
  function Count(labels: seq<int>, c: int): (k: nat)
    ensures k <= |labels|
    ensures k > 0 <==> c in labels
  {
    if |labels| == 0 then 0
    else (if labels[0] == c then 1 else 0) + Count(labels[1..], c)
  }

  /**
   What the clustering guarantees for `n` nodules: one label each, labels are
   ids >= 0 or noise, and every id below an occurring id occurs as well.
   */
  predicate ValidLabels(labels: seq<int>, n: nat)
  {
    && |labels| == n
    && (forall i :: 0 <= i < |labels| ==> Noise <= labels[i])
    && (forall i, c :: 0 <= i < |labels| && 0 <= c < labels[i] ==> c in labels)
  }

  /** `num_clusters`: largest label plus one, zero when every nodule is noise. */
  function NumClusters(labels: seq<int>): (k: nat)
    requires |labels| > 0 && forall i :: 0 <= i < |labels| ==> Noise <= labels[i]
    ensures k == 0 <==> forall i :: 0 <= i < |labels| ==> labels[i] == Noise
    ensures forall i :: 0 <= i < |labels| ==> labels[i] < k
  {
    MaxLabel(labels) + 1
  }

  /** `num_noise`: nodules labelled -1. */
  function NumNoise(labels: seq<int>): nat
  {
    Count(labels, Noise)
  }

  /** Every id below `NumClusters` labels at least one nodule. */
  lemma ClusterIdsOccur(labels: seq<int>, c: int)
    requires |labels| > 0 && ValidLabels(labels, |labels|)
    requires 0 <= c < NumClusters(labels)
    ensures c in labels
  {
    var m := MaxLabel(labels);
    if c < m {
      var i :| 0 <= i < |labels| && labels[i] == m;
    }
  }

  /** The cluster ids occurring among the labels. */
  function ClusterIds(labels: seq<int>): set<int>
  {
    if |labels| == 0 then {}
    else (if labels[0] >= 0 then {labels[0]} else {}) + ClusterIds(labels[1..])
  }

  lemma {:induction false} ClusterIdsBound(labels: seq<int>)
    ensures |ClusterIds(labels)| + NumNoise(labels) <= |labels|
    ensures forall c :: c in labels && c >= 0 ==> c in ClusterIds(labels)
  {
    if |labels| > 0 {
      ClusterIdsBound(labels[1..]);
      assert forall c :: c in labels && c != labels[0] ==> c in labels[1..];
    }
  }

  /** The ids `0..k-1`. */
  function IdRange(k: nat): (r: set<int>)
    ensures forall c :: c in r <==> 0 <= c < k
    ensures |r| == k
  {
    if k == 0 then {} else IdRange(k - 1) + {k - 1}
  }

  /** Clusters and noise nodules together never outnumber the nodules, so both
      normalised counts lie in [0, 1]. */
  lemma CountsBounded(labels: seq<int>)
    requires |labels| > 0 && ValidLabels(labels, |labels|)
    ensures NumClusters(labels) + NumNoise(labels) <= |labels|
  {
    var k := NumClusters(labels);
    var ids := IdRange(k);
    forall c | c in ids
      ensures c in ClusterIds(labels)
    {
      ClusterIdsOccur(labels, c);
      ClusterIdsBound(labels);
    }
    ClusterIdsBound(labels);
    SubsetSize(ids, ClusterIds(labels));
  }

  lemma SubsetSize<T>(a: set<T>, b: set<T>)
    requires a <= b
    ensures |a| <= |b|
  {
    assert b == a + (b - a);
  }

  /** The malignancy scores of the nodules labelled `c`, in nodule order. */
  function Members(labels: seq<int>, scores: seq<real>, c: int): (r: seq<real>)
    requires |labels| == |scores|
    ensures |r| == Count(labels, c)
    ensures forall x :: x in r ==> x in scores
  {
    if |labels| == 0 then []
    else
      var rest := Members(labels[1..], scores[1..], c);
      assert forall x :: x in rest ==> x in scores[1..];
      if labels[0] == c then [scores[0]] + rest else rest
  }

  /** `cluster_avgs`: the mean score of each cluster 0, 1, ..., then the raw score
      of each noise nodule. */
  function ClusterAverages(labels: seq<int>, scores: seq<real>): (r: seq<real>)
    requires |scores| > 0 && ValidLabels(labels, |scores|)
    ensures |r| == NumClusters(labels) + NumNoise(labels)
    ensures forall c :: 0 <= c < NumClusters(labels) ==>
              Count(labels, c) > 0 && r[c] == Mean(Members(labels, scores, c))
    ensures r[NumClusters(labels)..] == Members(labels, scores, Noise)
  {
    var k := NumClusters(labels);
    var means := seq(k, c requires 0 <= c < k =>
                       ClusterIdsOccur(labels, c);
                       Mean(Members(labels, scores, c)));
    means + Members(labels, scores, Noise)
  }

  /** `weighted_mean_malig`: each cluster counts once, each noise nodule once. */
  function WeightedMean(labels: seq<int>, scores: seq<real>): real
    requires |scores| > 0 && ValidLabels(labels, |scores|)
  {
    var avgs := ClusterAverages(labels, scores);
    assert |avgs| > 0 by {
      if NumClusters(labels) == 0 {
        assert labels[0] == Noise;
      }
    }
    Mean(avgs)
  }

  /** The weighted mean lies between the smallest and largest score. */
  lemma WeightedMeanBounds(labels: seq<int>, scores: seq<real>, lo: real, hi: real)
    requires |scores| > 0 && ValidLabels(labels, |scores|)
    requires forall i :: 0 <= i < |scores| ==> lo <= scores[i] <= hi
    ensures lo <= WeightedMean(labels, scores) <= hi
  {
    var k := NumClusters(labels);
    var avgs := ClusterAverages(labels, scores);
    forall i | 0 <= i < |avgs|
      ensures lo <= avgs[i] <= hi
    {
      if i < k {
        ClusterIdsOccur(labels, i);
        var ms := Members(labels, scores, i);
        forall j | 0 <= j < |ms|
          ensures lo <= ms[j] <= hi
        {
          assert ms[j] in scores;
        }
        MeanBounds(ms, lo, hi);
      } else {
        assert avgs[i] in Members(labels, scores, Noise);
      }
    }
    if k == 0 {
      assert labels[0] == Noise;
    }
    MeanBounds(avgs, lo, hi);
  }

  lemma {:induction false} MembersOfAll(labels: seq<int>, scores: seq<real>, c: int)
    requires |labels| == |scores|
    requires forall i :: 0 <= i < |labels| ==> labels[i] == c
    ensures Members(labels, scores, c) == scores
  {
    if |labels| > 0 {
      MembersOfAll(labels[1..], scores[1..], c);
    }
  }

  /** All noise (for instance a single nodule): the weighted mean is the plain mean. */
  lemma WeightedMeanAllNoise(labels: seq<int>, scores: seq<real>)
    requires |scores| > 0 && |labels| == |scores|
    requires forall i :: 0 <= i < |labels| ==> labels[i] == Noise
    ensures ValidLabels(labels, |scores|)
    ensures NumClusters(labels) == 0 && NumNoise(labels) == |scores|
    ensures WeightedMean(labels, scores) == Mean(scores)
  {
    MembersOfAll(labels, scores, Noise);
    assert ClusterAverages(labels, scores) == scores;
  }

  /** One cluster holding every nodule: the weighted mean is again the plain mean. */
  lemma WeightedMeanOneCluster(labels: seq<int>, scores: seq<real>)
    requires |scores| > 0 && |labels| == |scores|
    requires forall i :: 0 <= i < |labels| ==> labels[i] == 0
    ensures ValidLabels(labels, |scores|)
    ensures NumClusters(labels) == 1 && NumNoise(labels) == 0
    ensures WeightedMean(labels, scores) == Mean(scores)
  {
    MembersOfAll(labels, scores, 0);
    assert Noise !in labels;
    var avgs := ClusterAverages(labels, scores);
    assert avgs == [Mean(scores)];
    assert Sum(avgs) == Mean(scores);
  }

  /** The largest count among the ids `lo..hi`. */
  function LargestCount(labels: seq<int>, lo: int, hi: int): (r: nat)
    requires lo <= hi
    decreases hi - lo
    ensures forall c :: lo <= c <= hi ==> Count(labels, c) <= r
    ensures exists c :: lo <= c <= hi && Count(labels, c) == r
  {
    if lo == hi then Count(labels, lo)
    else
      var rest := LargestCount(labels, lo + 1, hi);
      if Count(labels, lo) >= rest then Count(labels, lo) else rest
  }

  /**
   `maxsize`: the size of the largest cluster among ids >= 1. Cluster 0 is not
   considered, as in the script, and with no id >= 1 the size is 1.
   */
  function LargestClusterSize(labels: seq<int>): (r: nat)
    requires |labels| > 0
    ensures 1 <= r <= |labels|
    ensures (forall i :: 0 <= i < |labels| ==> labels[i] < 1) ==> r == 1
    ensures (exists i :: 0 <= i < |labels| && labels[i] >= 1) ==>
              (forall c :: c >= 1 ==> Count(labels, c) <= r)
              && exists c :: c >= 1 && Count(labels, c) == r
  {
    var m := MaxLabel(labels);
    if m >= 1 then
      assert Count(labels, m) > 0;
      assert forall c :: c > m ==> c !in labels;
      LargestCount(labels, 1, m)
    else 1
  }

  /** The cluster-0 exclusion: a single cluster of every nodule reports size 1. */
  lemma LargestClusterSkipsZero(labels: seq<int>)
    requires |labels| >= 2
    requires forall i :: 0 <= i < |labels| ==> labels[i] == 0
    ensures Count(labels, 0) == |labels|
    ensures LargestClusterSize(labels) == 1
  {
    CountOfAll(labels, 0);
  }

  lemma {:induction false} CountOfAll(labels: seq<int>, c: int)
    requires forall i :: 0 <= i < |labels| ==> labels[i] == c
    ensures Count(labels, c) == |labels|
  {
    if |labels| > 0 {
      CountOfAll(labels[1..], c);
    }
  }
}
