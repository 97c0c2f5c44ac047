/**
 `process_voxels`: three test-time-augmentation rounds are blended, averaged
 per nodule, reduced to a maximum and a standard deviation per task, and
 joined with the location features into the patient's 18-value feature row.
 */
module Pipeline {
  import opened Stats
  import opened Ensemble
  import opened Clusters
  import opened Location

  /** `n_TTA`. */
  const Repetitions: nat := 3
  /** The length of a patient's feature row. */
  const Features: nat := 18

  /** Positions in the feature row. */
  function MaxAt(task: nat): nat requires task < Tasks { task }
  function StdAt(task: nat): nat requires task < Tasks { Tasks + task }
  const LocationAt: nat := 2 * Tasks

  /** Blend every round in order; the first failing round's error is raised, and
      since nothing catches it the whole run stops there. */
  function BlendRounds(rounds: seq<Round>, n: nat): (r: Result<seq<seq<Column>>>)
    requires forall i :: 0 <= i < |rounds| ==> Shaped(rounds[i], n)
    ensures r.Ok? <==> forall i :: 0 <= i < |rounds| ==> Usable(rounds[i].multi)
    ensures r.Ok? ==> |r.value| == |rounds|
                      && forall i :: 0 <= i < |rounds| ==> BlendRound(rounds[i], n) == Ok(r.value[i])
  {
    if |rounds| == 0 then Ok([])
    else
      var head := BlendRound(rounds[0], n);
      if head.Err? then Err(head.error)
      else
        var rest := BlendRounds(rounds[1..], n);
        if rest.Err? then Err(rest.error)
        else Ok([head.value] + rest.value)
  }

  /** A failure of the loop is the error of its first failing round. */
  lemma {:induction false} BlendRoundsFailure(rounds: seq<Round>, n: nat)
    requires forall i :: 0 <= i < |rounds| ==> Shaped(rounds[i], n)
    ensures var r := BlendRounds(rounds, n);
            r.Err? ==> exists i :: FirstFailure(rounds, n, i) && BlendRound(rounds[i], n) == Err(r.error)
  {
    var r := BlendRounds(rounds, n);
    if |rounds| > 0 && r.Err? {
      if BlendRound(rounds[0], n).Err? {
        assert FirstFailure(rounds, n, 0);
      } else {
        BlendRoundsFailure(rounds[1..], n);
        var i :| FirstFailure(rounds[1..], n, i) && BlendRound(rounds[1..][i], n) == Err(r.error);
        assert FirstFailure(rounds, n, i + 1);
      }
    }
  }

  /** Round `i` is the first round that fails. */
  predicate FirstFailure(rounds: seq<Round>, n: nat, i: int)
    requires forall k :: 0 <= k < |rounds| ==> Shaped(rounds[k], n)
  {
    && 0 <= i < |rounds|
    && !Usable(rounds[i].multi)
    && forall i' :: 0 <= i' < i ==> Usable(rounds[i'].multi)
  }

  /** The value round `i` gave nodule `j` for task `t`. */
  function Across(blended: seq<seq<Column>>, t: nat, j: nat): (xs: seq<real>)
    requires forall i :: 0 <= i < |blended| ==> t < |blended[i]| && j < |blended[i][t]|
    ensures |xs| == |blended|
  {
    seq(|blended|, i requires 0 <= i < |blended| => blended[i][t][j])
  }

  predicate BlendedShape(blended: seq<seq<Column>>, n: nat)
  {
    forall i :: 0 <= i < |blended| ==>
      |blended[i]| == Tasks && forall t :: 0 <= t < Tasks ==> |blended[i][t]| == n
  }

  /** `np.mean(..., axis=0)` over the rounds: one value per task per nodule. */
  function TtaMean(blended: seq<seq<Column>>, n: nat): (preds: seq<Column>)
    requires |blended| > 0 && BlendedShape(blended, n)
    ensures |preds| == Tasks && forall t :: 0 <= t < Tasks ==> |preds[t]| == n
  {
    seq(Tasks, t requires 0 <= t < Tasks =>
      seq(n, j requires 0 <= j < n => Mean(Across(blended, t, j))))
  }

  /** Rounds that agree (no augmentation effect) average to their common value. */
  lemma TtaMeanOfAgreeingRounds(blended: seq<seq<Column>>, n: nat)
    requires |blended| > 0 && BlendedShape(blended, n)
    requires forall i :: 0 <= i < |blended| ==> blended[i] == blended[0]
    ensures TtaMean(blended, n) == blended[0]
  {
    var preds := TtaMean(blended, n);
    forall t | 0 <= t < Tasks
      ensures preds[t] == blended[0][t]
    {
      forall j | 0 <= j < n
        ensures preds[t][j] == blended[0][t][j]
      {
        MeanConstant(Across(blended, t, j), blended[0][t][j]);
      }
    }
  }

  /** Each averaged prediction lies between the smallest and largest round value. */
  lemma TtaMeanBounds(blended: seq<seq<Column>>, n: nat, t: nat, j: nat)
    requires |blended| > 0 && BlendedShape(blended, n) && t < Tasks && j < n
    ensures Min(Across(blended, t, j)) <= TtaMean(blended, n)[t][j] <= Max(Across(blended, t, j))
  {
    var xs := Across(blended, t, j);
    MeanBounds(xs, Min(xs), Max(xs));
  }

  /** The per-task maxima (`xmax`) and standard deviations (`xsd`) over nodules. */
  function Summaries(preds: seq<Column>, n: nat, root: real -> real): (s: seq<real>)
    requires n > 0 && |preds| == Tasks && forall t :: 0 <= t < Tasks ==> |preds[t]| == n
    ensures |s| == 2 * Tasks
    ensures forall t :: 0 <= t < Tasks ==> s[MaxAt(t)] in preds[t]
    ensures forall t, j :: 0 <= t < Tasks && 0 <= j < n ==> preds[t][j] <= s[MaxAt(t)]
    ensures forall t :: 0 <= t < Tasks ==> s[StdAt(t)] == root(Variance(preds[t]))
  {
    seq(Tasks, t requires 0 <= t < Tasks => Max(preds[t]))
      + seq(Tasks, t requires 0 <= t < Tasks => root(Variance(preds[t])))
  }

  /** The patient inputs `process_voxels` is called with. */
  predicate PatientInputs(rounds: seq<Round>, locs: seq<Point>, sizes: seq<Point>,
                          dbscan: seq<seq<real>> -> seq<int>)
  {
    && |rounds| == Repetitions
    && |locs| > 0 && |sizes| == |locs|
    && (forall i :: 0 <= i < |rounds| ==> Shaped(rounds[i], |locs|))
    && Points(locs) && Points(sizes)
    && (forall i, k :: 0 <= i < |sizes| && 0 <= k < Axes ==> sizes[i][k] != 0.0)
    && ValidLabels(dbscan(DistanceMatrix(locs)), |locs|)
  }

  /** The per-task, per-nodule predictions averaged over the rounds. */
  function Predictions(rounds: seq<Round>, n: nat): (preds: seq<Column>)
    requires |rounds| > 0
    requires forall i :: 0 <= i < |rounds| ==> Shaped(rounds[i], n) && Usable(rounds[i].multi)
    ensures |preds| == Tasks && forall t :: 0 <= t < Tasks ==> |preds[t]| == n
  {
    var blended := BlendRounds(rounds, n).value;
    TtaMean(blended, n)
  }

  /** The feature row of a patient whose rounds all blended: the per-task
      summaries, then the location features of the averaged malignancy. */
  function FeatureRow(preds: seq<Column>, locs: seq<Point>, sizes: seq<Point>,
                      dbscan: seq<seq<real>> -> seq<int>, root: real -> real): (row: seq<real>)
    requires |locs| > 0 && |sizes| == |locs| && Points(locs) && Points(sizes)
    requires forall i, k :: 0 <= i < |sizes| && 0 <= k < Axes ==> sizes[i][k] != 0.0
    requires ValidLabels(dbscan(DistanceMatrix(locs)), |locs|)
    requires |preds| == Tasks && forall t :: 0 <= t < Tasks ==> |preds[t]| == |locs|
    ensures |row| == Features
    ensures forall t :: 0 <= t < Tasks ==> row[MaxAt(t)] in preds[t]
    ensures forall t, j :: 0 <= t < Tasks && 0 <= j < |locs| ==> preds[t][j] <= row[MaxAt(t)]
    ensures forall t :: 0 <= t < Tasks ==> row[StdAt(t)] == root(Variance(preds[t]))
    ensures row[LocationAt..] == LocFeatures(locs, preds[Malignancy], sizes, dbscan, root)
  {
    Summaries(preds, |locs|, root) + LocFeatures(locs, preds[Malignancy], sizes, dbscan, root)
  }

  /**
   `process_voxels`: the patient's feature row, or the error the first failing
   round raises.
   */
  function ProcessVoxels(rounds: seq<Round>, locs: seq<Point>, sizes: seq<Point>,
                         dbscan: seq<seq<real>> -> seq<int>, root: real -> real): (r: Result<seq<real>>)
    requires PatientInputs(rounds, locs, sizes, dbscan)
    ensures r.Ok? <==> forall i :: 0 <= i < |rounds| ==> Usable(rounds[i].multi)
    ensures r.Ok? ==> r.value == FeatureRow(Predictions(rounds, |locs|), locs, sizes, dbscan, root)
    ensures r.Err? ==> exists i :: FirstFailure(rounds, |locs|, i) && BlendRound(rounds[i], |locs|) == Err(r.error)
  {
    var n := |locs|;
    match BlendRounds(rounds, n)
    case Err(e) => BlendRoundsFailure(rounds, n); Err(e)
    case Ok(blended) => Ok(FeatureRow(TtaMean(blended, n), locs, sizes, dbscan, root))
  }

  /** A single nodule: every standard deviation in the row is that of one value. */
  lemma SingleNoduleSpread(rounds: seq<Round>, locs: seq<Point>, sizes: seq<Point>,
                           dbscan: seq<seq<real>> -> seq<int>, root: real -> real)
    requires PatientInputs(rounds, locs, sizes, dbscan) && |locs| == 1
    requires forall i :: 0 <= i < |rounds| ==> Usable(rounds[i].multi)
    ensures var r := ProcessVoxels(rounds, locs, sizes, dbscan, root).value;
            && (forall t :: 0 <= t < Tasks ==> r[StdAt(t)] == root(0.0))
            && r[LocationAt + 3] == root(0.0) && r[LocationAt + 4] == root(0.0)
            && r[LocationAt + 5] == root(0.0)
  {
    var preds := Predictions(rounds, 1);
    forall t | 0 <= t < Tasks
      ensures Variance(preds[t]) == 0.0
    {
      VarianceSingleton(preds[t]);
    }
    var normalised := Normalise(locs, sizes);
    forall k | 0 <= k < Axes
      ensures Variance(AxisValues(normalised, k)) == 0.0
    {
      VarianceSingleton(AxisValues(normalised, k));
    }
  }
}
