/**
 `get_loc_features`: where the most malignant nodule sits, how spread out the
 nodules are, and how they cluster. The clustering itself is a parameter
 (`dbscan`, applied to the distance matrix), and so is the square root that
 turns a variance into a standard deviation (`root`).
 */
module Location {
  import opened Stats
  import opened Clusters

  const Axes: nat := 3
  /** The length of the location feature block. */
  const LocationFeatures: nat := 10

  type Point = seq<real>

  predicate Points(ps: seq<Point>)
  {
    forall i :: 0 <= i < |ps| ==> |ps[i]| == Axes
  }

  function Abs(x: real): real
  {
    if x < 0.0 then -x else x
  }

  /** Per-axis absolute differences. */
  function AbsDiff(a: Point, b: Point): (d: seq<real>)
    requires |a| == Axes && |b| == Axes
    ensures |d| == Axes
  {
    seq(Axes, k requires 0 <= k < Axes => Abs(a[k] - b[k]))
  }

  /** Mean absolute coordinate difference (not the Euclidean distance). */
  function Distance(a: Point, b: Point): real
    requires |a| == Axes && |b| == Axes
  {
    Mean(AbsDiff(a, b))
  }

  lemma DistanceUnfold(a: Point, b: Point)
    requires |a| == Axes && |b| == Axes
    ensures Distance(a, b) == (Abs(a[0] - b[0]) + Abs(a[1] - b[1]) + Abs(a[2] - b[2])) / 3.0
  {
    var d := AbsDiff(a, b);
    assert Sum(d[2..]) == d[2] by {
      assert d[2..] == [d[2]];
    }
    assert Sum(d[1..]) == d[1] + d[2] by {
      assert d[1..][1..] == d[2..];
    }
  }

  /** The distance is a metric on points: symmetric, zero exactly between equal
      points, and obeying the triangle inequality. */
  lemma DistanceIsMetric(a: Point, b: Point, c: Point)
    requires |a| == Axes && |b| == Axes && |c| == Axes
    ensures Distance(a, b) >= 0.0
    ensures Distance(a, b) == Distance(b, a)
    ensures Distance(a, b) == 0.0 <==> a == b
    ensures Distance(a, c) <= Distance(a, b) + Distance(b, c)
  {
    DistanceUnfold(a, b);
    DistanceUnfold(b, a);
    DistanceUnfold(a, c);
    DistanceUnfold(b, c);
    if Distance(a, b) == 0.0 {
      assert a == [a[0], a[1], a[2]] && b == [b[0], b[1], b[2]];
    }
  }

  /** `dist_mat`, on the raw (not normalised) centroids. */
  function DistanceMatrix(locs: seq<Point>): (m: seq<seq<real>>)
    requires Points(locs)
    ensures |m| == |locs| && forall i :: 0 <= i < |m| ==> |m[i]| == |locs|
    ensures forall i, j :: 0 <= i < |locs| && 0 <= j < |locs| ==>
              m[i][j] == Distance(locs[i], locs[j])
              && m[i][j] == m[j][i] && m[i][j] >= 0.0
              && (m[i][j] == 0.0 <==> locs[i] == locs[j])
    ensures forall i :: 0 <= i < |locs| ==> m[i][i] == 0.0
  {
    var n := |locs|;
    forall i, j | 0 <= i < n && 0 <= j < n
      ensures Distance(locs[i], locs[j]) == Distance(locs[j], locs[i]) >= 0.0
      ensures Distance(locs[i], locs[j]) == 0.0 <==> locs[i] == locs[j]
    {
      DistanceIsMetric(locs[i], locs[j], locs[j]);
    }
    seq(n, i requires 0 <= i < n =>
      seq(n, j requires 0 <= j < n => Distance(locs[i], locs[j])))
  }

  /** Every centroid divided by its scan size, axis by axis. */
  function Normalise(locs: seq<Point>, sizes: seq<Point>): (r: seq<Point>)
    requires |sizes| == |locs| && Points(locs) && Points(sizes)
    requires forall i, k :: 0 <= i < |sizes| && 0 <= k < Axes ==> sizes[i][k] != 0.0
    ensures |r| == |locs| && Points(r)
    ensures forall i, k :: 0 <= i < |r| && 0 <= k < Axes ==> r[i][k] * sizes[i][k] == locs[i][k]
  {
    seq(|locs|, i requires 0 <= i < |locs| =>
      seq(Axes, k requires 0 <= k < Axes => locs[i][k] / sizes[i][k]))
  }

  /** A centroid inside its scan normalises into the unit cube. */
  lemma NormaliseInUnitCube(locs: seq<Point>, sizes: seq<Point>)
    requires |sizes| == |locs| && Points(locs) && Points(sizes)
    requires forall i, k :: 0 <= i < |sizes| && 0 <= k < Axes ==> 0.0 <= locs[i][k] <= sizes[i][k] && sizes[i][k] > 0.0
    ensures forall i, k :: 0 <= i < |locs| && 0 <= k < Axes ==> 0.0 <= Normalise(locs, sizes)[i][k] <= 1.0
  {
    var r := Normalise(locs, sizes);
    forall i, k | 0 <= i < |locs| && 0 <= k < Axes
      ensures 0.0 <= r[i][k] <= 1.0
    {
      assert r[i][k] * sizes[i][k] == locs[i][k];
    }
  }

  /** `np.argmax`: the first index holding the largest value. */
  function ArgMax(s: seq<real>): (r: nat)
    requires |s| > 0
    ensures r < |s|
    ensures forall j :: 0 <= j < |s| ==> s[j] <= s[r]
    ensures forall j :: 0 <= j < r ==> s[j] < s[r]
  {
    if |s| == 1 then 0
    else
      var r := ArgMax(s[..|s| - 1]);
      if s[|s| - 1] > s[r] then |s| - 1 else r
  }

  /** One coordinate axis of a list of points. */
  function AxisValues(ps: seq<Point>, k: nat): (xs: seq<real>)
    requires Points(ps) && k < Axes
    ensures |xs| == |ps| && forall i :: 0 <= i < |ps| ==> xs[i] == ps[i][k]
  {
    seq(|ps|, i requires 0 <= i < |ps| => ps[i][k])
  }

  /** Per-axis standard deviation of the points (`std(axis=0)`); an axis on
      which every point has the same coordinate has the spread of zero. */
  function Spread(ps: seq<Point>, root: real -> real): (r: seq<real>)
    requires |ps| > 0 && Points(ps)
    ensures |r| == Axes
    ensures forall k :: 0 <= k < Axes ==> r[k] == root(Variance(AxisValues(ps, k)))
    ensures forall k :: 0 <= k < Axes && (forall i :: 0 <= i < |ps| ==> ps[i][k] == ps[0][k]) ==>
              r[k] == root(0.0)
  {
    ConstantAxes(ps);
    seq(Axes, k requires 0 <= k < Axes => root(Variance(AxisValues(ps, k))))
  }

  lemma ConstantAxes(ps: seq<Point>)
    requires |ps| > 0 && Points(ps)
    ensures forall k :: 0 <= k < Axes && (forall i :: 0 <= i < |ps| ==> ps[i][k] == ps[0][k]) ==>
              Variance(AxisValues(ps, k)) == 0.0
  {
    forall k | 0 <= k < Axes && (forall i :: 0 <= i < |ps| ==> ps[i][k] == ps[0][k])
      ensures Variance(AxisValues(ps, k)) == 0.0
    {
      VarianceConstant(AxisValues(ps, k));
    }
  }

  /** The inputs `get_loc_features` works on: `n >= 1` nodules, centroids and
      scan sizes of three axes, non-zero sizes, and labels of the shape the
      clustering produces. */
  predicate LocInputs(locs: seq<Point>, scores: seq<real>, sizes: seq<Point>,
                      dbscan: seq<seq<real>> -> seq<int>)
  {
    && |locs| > 0
    && |scores| == |locs| && |sizes| == |locs|
    && Points(locs) && Points(sizes)
    && (forall i, k :: 0 <= i < |sizes| && 0 <= k < Axes ==> sizes[i][k] != 0.0)
    && ValidLabels(dbscan(DistanceMatrix(locs)), |locs|)
  }

  /**
   The four cluster features: clusters per nodule, noise nodules per nodule,
   the cluster-weighted mean score, and the largest cluster (ids >= 1) per nodule.
   */
  function ClusterFeatures(labels: seq<int>, scores: seq<real>): (r: seq<real>)
    requires |scores| > 0 && ValidLabels(labels, |scores|)
    ensures |r| == 4
    ensures r[0] == Fraction(NumClusters(labels), |scores|)
    ensures r[1] == Fraction(NumNoise(labels), |scores|)
    ensures r[2] == WeightedMean(labels, scores)
    ensures r[3] == Fraction(LargestClusterSize(labels), |scores|)
    ensures 0.0 <= r[0] && 0.0 <= r[1] && r[0] + r[1] <= 1.0
    ensures Min(scores) <= r[2] <= Max(scores)
    ensures 0.0 < r[3] <= 1.0
  {
    CountsBounded(labels);
    var clusters, noise, largest := NumClusters(labels), NumNoise(labels), LargestClusterSize(labels);
    FractionsOfNodules(clusters, noise, |scores|);
    FractionsOfNodules(largest, 0, |scores|);
    var w := WeightedMean(labels, scores);
    WeightedMeanBounds(labels, scores, Min(scores), Max(scores));
    [Fraction(clusters, |scores|), Fraction(noise, |scores|), w, Fraction(largest, |scores|)]
  }

  /** A count of nodules as a share of all `n` nodules. */
  function Fraction(k: nat, n: nat): (f: real)
    requires n > 0
    ensures f * (n as real) == k as real
  {
    k as real / n as real
  }

  lemma FractionsOfNodules(a: nat, b: nat, n: nat)
    requires 0 < n && a + b <= n
    ensures 0.0 <= Fraction(a, n) && 0.0 <= Fraction(b, n)
    ensures Fraction(a, n) + Fraction(b, n) <= 1.0
    ensures a > 0 ==> 0.0 < Fraction(a, n)
  {
    var fa, fb := Fraction(a, n), Fraction(b, n);
    assert (fa + fb) * (n as real) == (a + b) as real;
  }

  /**
   `get_loc_features`: the normalised location of the most malignant nodule (3),
   the per-axis spread of normalised locations (3), then the cluster features (4).
   */
  function LocFeatures(locs: seq<Point>, scores: seq<real>, sizes: seq<Point>,
                       dbscan: seq<seq<real>> -> seq<int>, root: real -> real): (r: seq<real>)
    requires LocInputs(locs, scores, sizes, dbscan)
    ensures |r| == LocationFeatures
    ensures r[..3] == Normalise(locs, sizes)[ArgMax(scores)]
    ensures r[3..6] == Spread(Normalise(locs, sizes), root)
    ensures r[6..] == ClusterFeatures(dbscan(DistanceMatrix(locs)), scores)
  {
    var normalised := Normalise(locs, sizes);
    normalised[ArgMax(scores)] + Spread(normalised, root)
      + ClusterFeatures(dbscan(DistanceMatrix(locs)), scores)
  }
}
