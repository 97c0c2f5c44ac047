# Ensemble scoring of lung nodules: a Dafny model

`scoring/2.2-score_ensemble1.py` turns the candidate nodules of one patient
into one row of 18 features. The row feeds the patient-level cancer
classifier. The script does this in four steps:

- **Test-time augmentation.** `random_perturb` reflects each nodule volume
  along random axes and permutes its three spatial axes.
- **Ensemble blend.** `process_voxels` runs three augmentation rounds. In each
  round it scores the nodules with seven multi-output slots and two
  malignancy-only models. Six distinct models fill the seven slots: the
  fine-tuned `model_v36_mse_ft` fills slots 4 and 5. Outputs trained on the 0-5
  rating scale are divided by 5. The model in the last slot (`model_v29`) has
  more than four output groups and keeps only its first four. Each of
  diameter, lobulation, spiculation and malignancy is then blended with fixed
  regression coefficients.
- **Patient summary.** The three rounds are averaged. Each task is then
  reduced to its maximum and its (population) standard deviation over the
  nodules.
- **Location features.** `get_loc_features` adds 10 values:
  - the normalised location of the most malignant nodule;
  - the spread of the normalised locations;
  - four features of a density-based clustering of the nodule centroids,
    computed under the mean-absolute-difference distance.

The model is pure functions over immutable data. The modules follow those
steps:

| module | file | what it holds |
|---|---|---|
| `Stats` | `stats.dfy` | sum, mean, max, min, population variance, and their bounds |
| `Cube` | `cube.dfy` | row-major offsets of a cubic volume and the coordinate/offset round trip |
| `Reorder` | `reorder.dfy` | gathering through an injective index map preserves the multiset of values |
| `Augment` | `augment.dfy` | `random_perturb` with reflection and axis permutation, its identity and its inverse |
| `Ensemble` | `ensemble.dfy` | one augmentation round: rescaling, truncation, column choice, blend, and failures |
| `Clusters` | `clusters.dfy` | bookkeeping on the cluster labels: counts, averages, weighted mean, largest cluster |
| `Location` | `location.dfy` | `get_loc_features`: distance matrix, normalisation, argmax, spread, cluster features |
| `Pipeline` | `pipeline.dfy` | `process_voxels`: rounds, averaging over rounds, max/std, the 18-value row |

Some things the script takes from outside are parameters of the model:

- the model predictions;
- the random draws of `random_perturb`;
- the clustering (`dbscan: seq<seq<real>> -> seq<int>`, applied to the
  distance matrix);
- the square root (`root: real -> real`).

The labels the clustering returns are assumed to satisfy
`Clusters.ValidLabels`: one label per nodule, each label is -1 (noise) or a
cluster id ≥ 0, and every id below an occurring id also occurs.

A round fails the way the script fails:

- `MissingOutput` stands for the `IndexError` a prediction with too few
  output groups raises. Slots 1, 3, 4 and 5 are checked in that order during
  rescaling. Slots 0 and 2 are checked afterwards, during the concatenation.
- `TruncationAssert` stands for the `assert len(p) > 4` on slot 6.

A failing round raises. Nothing in the script's loop over patients catches
the exception, so the first failure ends the whole run, not just that
patient.

The largest-cluster feature counts only clusters with id ≥ 1, exactly as the
script does (`labels_ > 0`). A patient whose nodules all fall into cluster 0
reports a largest cluster of 1 (`Clusters.LargestClusterSkipsZero`). The
model keeps this behaviour because the downstream classifier was calibrated
on it.

## Model

| member | source | states |
|---|---|---|
| `Augment.PerturbVolume` | scoring/2.2-score_ensemble1.py:16-21 | each output voxel is the input voxel at the reflected, permuted coordinate, and the volume's multiset of values is unchanged |
| `Augment.PerturbVolumeAt` | scoring/2.2-score_ensemble1.py:19-21 | coordinate form: output voxel `o` holds input voxel `x` with `x[a]` reflected from `o[q]` where output axis `q` is input axis `a` |
| `Augment.SourceCoordInjective` | scoring/2.2-score_ensemble1.py:19-21 | distinct output voxels read distinct input voxels |
| `Reorder.GatherPermutes` | scoring/2.2-score_ensemble1.py:21 | reading a volume through an injective in-range index map only rearranges its values |
| `Augment.Perturb` | scoring/2.2-score_ensemble1.py:14-29 | the batch keeps its length; each volume keeps its side and its multiset of voxel values and is transformed by its own draw |
| `Augment.PerturbIdentity` | scoring/2.2-score_ensemble1.py:16-21 | all signs +1 with the axes in order returns the batch unchanged |
| `Augment.PerturbVolumeRoundTrip` | scoring/2.2-score_ensemble1.py:19-21 | perturbing with the inverse draw restores the volume |
| `Augment.PerturbRoundTrip` | scoring/2.2-score_ensemble1.py:16-21 | perturbing with the per-volume inverse draws restores the whole batch |
| `Cube.OffsetOfCoord` | scoring/2.2-score_ensemble1.py:19-21 | every flat offset of a cube is the offset of its own coordinate, which lies inside the cube |
| `Ensemble.Coefs` | scoring/2.2-score_ensemble1.py:126-129 | six coefficients for diameter, lobulation and spiculation, eight for malignancy, all non-negative |
| `Ensemble.Rescale` | scoring/2.2-score_ensemble1.py:94-96 | every rescaled value times 5 gives back the model's value |
| `Ensemble.RescaleGroups` | scoring/2.2-score_ensemble1.py:92-97 | groups 1-3 are divided by 5; group 0 and any groups after 3 are unchanged |
| `Ensemble.NormaliseSlots` | scoring/2.2-score_ensemble1.py:91-100 | succeeds exactly when slots 1, 3, 4, 5 have four groups and slot 6 more than four; on success those slots are rescaled, slots 0 and 2 kept, slot 6 cut to four groups; a missing-output error names the first short slot in the order 1, 3, 4, 5 with its group count; the slot-6 assert fails only when every rescaled slot has its four groups |
| `Ensemble.NormaliseSingles` | scoring/2.2-score_ensemble1.py:108-112 | the first single-output model is kept and the second is divided by 5 |
| `Ensemble.TaskColumns` | scoring/2.2-score_ensemble1.py:116-124 | column `i` of a task is that task's group of slot `[0,1,2,3,5,6][i]`; malignancy appends the two single-output columns |
| `Ensemble.DotMonotone` | scoring/2.2-score_ensemble1.py:131-134 | with non-negative coefficients, raising any input never lowers the blend |
| `Ensemble.DotBounds` | scoring/2.2-score_ensemble1.py:131-134 | a blend of values in `[lo, hi]` lies in `[S*lo, S*hi]`, `S` the coefficient total |
| `Ensemble.BlendAgreement` | scoring/2.2-score_ensemble1.py:131-134 | where every model predicts `v`, the blend is the coefficient total times `v` |
| `Ensemble.BlendBounds` | scoring/2.2-score_ensemble1.py:131-134 | every blended nodule lies within the coefficient total times the range of the inputs |
| `Ensemble.BlendTasks` | scoring/2.2-score_ensemble1.py:131-134 | each task's blended value for a nodule is the coefficient-weighted sum of that nodule's row of the task's columns |
| `Ensemble.ColumnsAreInputs` | scoring/2.2-score_ensemble1.py:91-124 | after normalisation, a task's columns hold the round's raw outputs of slots 0, 1, 2, 3, 5, 6, divided by 5 for slots 1, 3, 5 on lobulation, spiculation and malignancy, and for malignancy the first single model and the second divided by 5 |
| `Ensemble.BlendRound` | scoring/2.2-score_ensemble1.py:89-138 | a round succeeds exactly when it is usable (slots 0-5 have four groups, slot 6 more than four); then each of the four tasks gives, per nodule, the coefficient-weighted sum of the round's raw outputs as the blend uses them; a missing-output error names a slot with too few groups |
| `Ensemble.BlendRoundErrors` | scoring/2.2-score_ensemble1.py:91-124 | a rescaling or slot-6 failure is the round's error unchanged; after those, the error is slot 0 or 2 with its group count, slot 0 exactly when it has no more groups than slot 2 |
| `Ensemble.BlendRoundAgreement` | scoring/2.2-score_ensemble1.py:116-134 | where every input of every task agrees on `v`, the round succeeds and each blended value is the task's coefficient total times `v` |
| `Ensemble.TotalOfAgreeing` | scoring/2.2-score_ensemble1.py:126-134 | a blend of inputs all equal to `v` is `v` times the task's coefficient total: 1.03704352, 1.09671963, 1.07262547, 1.0536 |
| `Ensemble.Slot4Unused` | scoring/2.2-score_ensemble1.py:116-124 | replacing slot 4's prediction by any other with four groups leaves the blended round unchanged |
| `Ensemble.BlendIgnoresSlot4` | scoring/2.2-score_ensemble1.py:116-124 | normalised predictions that agree on the blended slots give the same four task columns |
| `Clusters.MaxLabel` | scoring/2.2-score_ensemble1.py:44 | the largest label occurs and bounds every label |
| `Clusters.NumClusters` | scoring/2.2-score_ensemble1.py:44 | the cluster count is zero exactly when every nodule is noise, and exceeds every label |
| `Clusters.Count` | scoring/2.2-score_ensemble1.py:45 | a label's count is at most the number of nodules and positive exactly when the label occurs |
| `Clusters.ClusterIdsOccur` | scoring/2.2-score_ensemble1.py:49-50 | every id below the cluster count labels a nodule, so no cluster average is over an empty set |
| `Clusters.CountsBounded` | scoring/2.2-score_ensemble1.py:44-45 | clusters plus noise nodules never outnumber the nodules |
| `Clusters.Members` | scoring/2.2-score_ensemble1.py:50 | a cluster's scores number the nodules carrying its label, and each is one of the patient's scores |
| `Clusters.ClusterAverages` | scoring/2.2-score_ensemble1.py:48-55 | one mean per cluster id 0..k-1 over a non-empty member list, followed by the noise nodules' own scores in nodule order |
| `Clusters.WeightedMeanBounds` | scoring/2.2-score_ensemble1.py:57 | the weighted mean lies within any bounds on the scores |
| `Clusters.WeightedMeanAllNoise` | scoring/2.2-score_ensemble1.py:52-57 | when every nodule is noise there are no clusters and the weighted mean is the plain mean |
| `Clusters.WeightedMeanOneCluster` | scoring/2.2-score_ensemble1.py:48-57 | one cluster holding every nodule gives the plain mean as well |
| `Clusters.LargestClusterSize` | scoring/2.2-score_ensemble1.py:60-64 | between 1 and the nodule count; 1 when no label is ≥ 1, otherwise the largest count over ids ≥ 1, which some id attains |
| `Clusters.LargestClusterSkipsZero` | scoring/2.2-score_ensemble1.py:60-64 | all nodules in cluster 0 (at least two) gives size 1 although cluster 0 holds them all |
| `Clusters.CountOfAll` | scoring/2.2-score_ensemble1.py:60 | a label carried by every nodule counts every nodule |
| `Location.Normalise` | scoring/2.2-score_ensemble1.py:33 | each normalised coordinate times the scan size gives back the centroid coordinate |
| `Location.NormaliseInUnitCube` | scoring/2.2-score_ensemble1.py:33 | centroids inside their scans normalise into the unit cube |
| `Location.ArgMax` | scoring/2.2-score_ensemble1.py:36 | the first index of a largest score |
| `Location.DistanceUnfold` | scoring/2.2-score_ensemble1.py:41 | the distance is the sum of the three absolute coordinate differences divided by 3 |
| `Location.DistanceIsMetric` | scoring/2.2-score_ensemble1.py:41 | the distance is non-negative, symmetric, zero exactly between equal points, and obeys the triangle inequality |
| `Location.DistanceMatrix` | scoring/2.2-score_ensemble1.py:38-41 | an n×n matrix of pairwise distances: symmetric, non-negative, zero on the diagonal and exactly between coincident centroids |
| `Location.Spread` | scoring/2.2-score_ensemble1.py:67 | three values, each the root of one axis's population variance; an axis on which all points agree has the spread root(0) |
| `Location.Fraction` | scoring/2.2-score_ensemble1.py:65-69 | a share times the nodule count gives back the count |
| `Location.FractionsOfNodules` | scoring/2.2-score_ensemble1.py:68-69 | shares of two disjoint counts are non-negative and add up to at most 1 |
| `Location.ClusterFeatures` | scoring/2.2-score_ensemble1.py:65-69 | clusters/n and noise/n are in [0,1] with sum at most 1; the weighted mean is within the scores' range; maxsize/n is in (0,1] |
| `Location.LocFeatures` | scoring/2.2-score_ensemble1.py:32-69 | ten values: the most malignant nodule's normalised location, the per-axis spread, then the cluster features of the clustering of the distance matrix |
| `Stats.Max` | scoring/2.2-score_ensemble1.py:144 | the maximum is one of the values and bounds them all |
| `Stats.Variance` | scoring/2.2-score_ensemble1.py:145 | the population variance is non-negative |
| `Stats.MeanBounds` | scoring/2.2-score_ensemble1.py:141-142 | a mean lies within any bounds on its values |
| `Stats.MeanConstant` | scoring/2.2-score_ensemble1.py:141-142 | the mean of equal values is that value |
| `Stats.VarianceConstant` | scoring/2.2-score_ensemble1.py:145 | equal values have variance 0 |
| `Stats.VarianceSingleton` | scoring/2.2-score_ensemble1.py:145 | a single value has variance 0 |
| `Pipeline.BlendRounds` | scoring/2.2-score_ensemble1.py:81-138 | succeeds exactly when every round is usable, with each round's blend in order |
| `Pipeline.BlendRoundsFailure` | scoring/2.2-score_ensemble1.py:81-138 | a failure is the error of the first failing round: every earlier round is usable |
| `Pipeline.TtaMeanOfAgreeingRounds` | scoring/2.2-score_ensemble1.py:141-142 | rounds that agree average to their common prediction |
| `Pipeline.TtaMeanBounds` | scoring/2.2-score_ensemble1.py:141-142 | each averaged prediction lies between the smallest and largest round value |
| `Pipeline.Summaries` | scoring/2.2-score_ensemble1.py:144-145 | per task, the maximum is one nodule's prediction and bounds all of them; the deviation is the root of the population variance |
| `Pipeline.FeatureRow` | scoring/2.2-score_ensemble1.py:144-148 | 18 values: per-task maxima (attained and bounding), per-task deviations, then the location features of the averaged malignancy |
| `Pipeline.ProcessVoxels` | scoring/2.2-score_ensemble1.py:72-148 | succeeds exactly when every round is usable, and then is the feature row of the predictions averaged over the rounds; otherwise fails with the error of the first failing round |
| `Pipeline.SingleNoduleSpread` | scoring/2.2-score_ensemble1.py:144-148 | a single nodule makes all seven deviation features the root of 0 |

## Left out

- Model loading and prediction (`load_model`, `predict`) are not modelled. The
  predictions of each round are inputs. That every column holds one value per
  nodule (`Ensemble.Shaped`) is the prediction contract and a precondition.
- Each model gets a fresh `random_perturb` of the voxels. The model takes the
  resulting predictions as given, so it does not connect `Augment` to
  `Pipeline`.
- The random draws (`np.random.choice`, `np.random.permutation`) are
  parameters: a `Transform` per volume.
- Rotation (`rotate=True`, interpolated `ndimage.rotate`) is off in the
  script's call and is not modelled.
- `random_perturb` copies its input batch. The model is pure, so the copy has
  nothing to protect.
- Volumes are single-channel: the script's channel axis is dropped and its
  axes 1-3 become 0-2.
- Clustering is a parameter applied to the distance matrix, so its fixed
  radius 60 and minimum of 2 samples are not modelled. Its output contract is
  a precondition (`Clusters.ValidLabels`).
- The square root of the standard deviations is a parameter; variances are
  exact.
- Arithmetic is exact over the reals. The script's float32 and float64
  rounding is not modelled.
- A patient with no nodules is a precondition violation (n ≥ 1).
- Zero scan sizes are excluded by precondition (the division would produce
  inf/nan).
- `looks_linear_init` and the file-reading, model-loading and CSV-writing
  driver are not modelled: they are I/O or training-time code.
- `Augment.Perturb`: requires cubic volumes. For a non-cubic volume, writing
  the transposed volume back into the batch fails in the script unless the
  permutation keeps the shape, and the model does not cover that case.
