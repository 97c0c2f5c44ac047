/**
 Test-time augmentation by reflection and axis permutation (`random_perturb`
 with rotation off). The random draws become explicit: one sign in {-1, 1}
 per spatial axis and a permutation of the three spatial axes per volume.
 Axes are numbered 0..2 here; the script numbers them 1..3 behind the channel
 axis of its single-channel volumes.
 */
module Augment {
  import opened Cube
  import opened Reorder

  /** A single-channel cubic volume, voxels in row-major order. */
  datatype Volume = Volume(side: nat, voxels: seq<real>)

  predicate IsCube(v: Volume)
  {
    |v.voxels| == v.side * v.side * v.side
  }

  /**
   The draws for one volume: `signs[a] == -1` reverses spatial axis `a`
   (numpy `::-1`), and output axis `q` is input axis `axes[q]` (numpy `transpose`).
   */
  datatype Transform = Transform(signs: seq<int>, axes: seq<nat>)

  predicate ValidTransform(t: Transform)
  {
    && |t.signs| == 3
    && |t.axes| == 3
    && (forall a :: 0 <= a < 3 ==> t.signs[a] == 1 || t.signs[a] == -1)
    && (forall q :: 0 <= q < 3 ==> t.axes[q] < 3)
    && t.axes[0] != t.axes[1] && t.axes[0] != t.axes[2] && t.axes[1] != t.axes[2]
  }

  function Flip(sign: int, d: nat, x: nat): (y: nat)
    requires x < d
    ensures y < d
  {
    if sign == 1 then x else d - 1 - x
  }

  /** The output axis that input axis `a` is moved to. */
  function AxisPosition(axes: seq<nat>, a: nat): (q: nat)
    requires |axes| == 3
    ensures q < 3
  {
    if axes[0] == a then 0 else if axes[1] == a then 1 else 2
  }

  /** The input coordinate an output coordinate `o` is read from. */
  function SourceCoord(t: Transform, d: nat, o: seq<nat>): (x: seq<nat>)
    requires ValidTransform(t) && InCube(d, o)
    ensures InCube(d, x)
  {
    seq(3, a requires 0 <= a < 3 => Flip(t.signs[a], d, o[AxisPosition(t.axes, a)]))
  }

  /** `SourceCoord` on flat offsets. */
  function SourceIndex(t: Transform, d: nat, k: nat): (j: nat)
    requires ValidTransform(t) && k < d * d * d
    ensures j < d * d * d
  {
    CoordOfInCube(d, k);
    Offset(d, SourceCoord(t, d, CoordOf(d, k)))
  }

  /** The source map of a whole volume: output offset to input offset. */
  function SourceMap(t: Transform, d: nat): (p: seq<nat>)
    requires ValidTransform(t)
    ensures IsIndexMap(p, d * d * d)
    ensures forall k :: 0 <= k < |p| ==> p[k] == SourceIndex(t, d, k)
  {
    var p := seq(d * d * d, k requires 0 <= k < d * d * d => SourceIndex(t, d, k));
    SourceIndexInjective(t, d, p);
    p
  }

  /** One volume: every output voxel is read from the input voxel the draw maps it
      to, so the volume's values are rearranged and never invented or lost. */
  function PerturbVolume(t: Transform, v: Volume): (r: Volume)
    requires ValidTransform(t) && IsCube(v)
    ensures r.side == v.side && IsCube(r)
    ensures forall k :: 0 <= k < |r.voxels| ==> r.voxels[k] == v.voxels[SourceIndex(t, v.side, k)]
    ensures multiset(r.voxels) == multiset(v.voxels)
  {
    var p := SourceMap(t, v.side);
    GatherPermutes(v.voxels, p);
    Volume(v.side, Gather(v.voxels, p))
  }

  /** The same statement on coordinates: output voxel `o` holds input voxel `SourceCoord(o)`. */
  lemma PerturbVolumeAt(t: Transform, v: Volume, o: seq<nat>)
    requires ValidTransform(t) && IsCube(v) && InCube(v.side, o)
    ensures PerturbVolume(t, v).voxels[Offset(v.side, o)]
         == v.voxels[Offset(v.side, SourceCoord(t, v.side, o))]
  {
    CoordOfOffset(v.side, o);
  }

  /** Different output voxels read different input voxels. */
  lemma SourceIndexInjective(t: Transform, d: nat, p: seq<nat>)
    requires ValidTransform(t)
    requires |p| == d * d * d
    requires forall k :: 0 <= k < |p| ==> p[k] == SourceIndex(t, d, k)
    ensures IsIndexMap(p, d * d * d)
  {
    forall i, j | 0 <= i < j < |p|
      ensures p[i] != p[j]
    {
      CoordOfInCube(d, i);
      CoordOfInCube(d, j);
      var ci, cj := CoordOf(d, i), CoordOf(d, j);
      if p[i] == p[j] {
        OffsetInjective(d, SourceCoord(t, d, ci), SourceCoord(t, d, cj));
        SourceCoordInjective(t, d, ci, cj);
        OffsetOfCoord(d, i);
        OffsetOfCoord(d, j);
      }
    }
  }

  lemma SourceCoordInjective(t: Transform, d: nat, o: seq<nat>, o': seq<nat>)
    requires ValidTransform(t) && InCube(d, o) && InCube(d, o')
    requires SourceCoord(t, d, o) == SourceCoord(t, d, o')
    ensures o == o'
  {
    forall q | 0 <= q < 3
      ensures o[q] == o'[q]
    {
      var a := t.axes[q];
      assert AxisPosition(t.axes, a) == q;
      assert SourceCoord(t, d, o)[a] == SourceCoord(t, d, o')[a];
    }
  }

  /** `random_perturb`: each volume of the batch gets its own transform. */
  function Perturb(batch: seq<Volume>, ts: seq<Transform>): (r: seq<Volume>)
    requires |ts| == |batch|
    requires forall i :: 0 <= i < |batch| ==> ValidTransform(ts[i]) && IsCube(batch[i])
    ensures |r| == |batch|
    ensures forall i :: 0 <= i < |r| ==>
              r[i].side == batch[i].side && IsCube(r[i])
              && multiset(r[i].voxels) == multiset(batch[i].voxels)
    ensures forall i :: 0 <= i < |r| ==> r[i] == PerturbVolume(ts[i], batch[i])
  {
    seq(|batch|, i requires 0 <= i < |batch| => PerturbVolume(ts[i], batch[i]))
  }

  /** All signs +1 and axes in order. */
  predicate IsIdentity(t: Transform)
  {
    t.signs == [1, 1, 1] && t.axes == [0, 1, 2]
  }

  lemma SourceIndexIdentity(t: Transform, d: nat, k: nat)
    requires IsIdentity(t) && k < d * d * d
    ensures ValidTransform(t) && SourceIndex(t, d, k) == k
  {
    OffsetOfCoord(d, k);
    var o := CoordOf(d, k);
    assert SourceCoord(t, d, o) == o;
  }

  lemma PerturbVolumeIdentity(t: Transform, v: Volume)
    requires IsIdentity(t) && IsCube(v)
    ensures ValidTransform(t) && PerturbVolume(t, v) == v
  {
    var r := PerturbVolume(t, v);
    forall k | 0 <= k < |v.voxels|
      ensures r.voxels[k] == v.voxels[k]
    {
      SourceIndexIdentity(t, v.side, k);
    }
  }

  /** The identity draw leaves every volume unchanged. */
  lemma PerturbIdentity(batch: seq<Volume>, ts: seq<Transform>)
    requires |ts| == |batch|
    requires forall i :: 0 <= i < |batch| ==> IsIdentity(ts[i]) && IsCube(batch[i])
    ensures forall i :: 0 <= i < |batch| ==> ValidTransform(ts[i])
    ensures Perturb(batch, ts) == batch
  {
    forall i | 0 <= i < |batch|
      ensures ValidTransform(ts[i]) && PerturbVolume(ts[i], batch[i]) == batch[i]
    {
      PerturbVolumeIdentity(ts[i], batch[i]);
    }
  }

  /** The draw that undoes `t`: reflect the axes `t` reflected, then permute back. */
  function Inverse(t: Transform): (u: Transform)
    requires ValidTransform(t)
    ensures ValidTransform(u)
  {
    Transform(seq(3, q requires 0 <= q < 3 => t.signs[t.axes[q]]),
              seq(3, a requires 0 <= a < 3 => AxisPosition(t.axes, a)))
  }

  lemma SourceCoordInverse(t: Transform, d: nat, z: seq<nat>)
    requires ValidTransform(t) && InCube(d, z)
    ensures SourceCoord(t, d, SourceCoord(Inverse(t), d, z)) == z
  {
  }

  lemma SourceIndexInverse(t: Transform, d: nat, k: nat)
    requires ValidTransform(t) && k < d * d * d
    ensures SourceIndex(t, d, SourceIndex(Inverse(t), d, k)) == k
  {
    OffsetOfCoord(d, k);
    var z := CoordOf(d, k);
    var y := SourceCoord(Inverse(t), d, z);
    CoordOfOffset(d, y);
    SourceCoordInverse(t, d, z);
  }

  lemma PerturbVolumeRoundTrip(t: Transform, v: Volume)
    requires ValidTransform(t) && IsCube(v)
    ensures PerturbVolume(Inverse(t), PerturbVolume(t, v)) == v
  {
    var once := PerturbVolume(t, v);
    var twice := PerturbVolume(Inverse(t), once);
    forall k | 0 <= k < |v.voxels|
      ensures twice.voxels[k] == v.voxels[k]
    {
      SourceIndexInverse(t, v.side, k);
    }
  }

  /** Perturbing with the inverse draws restores the original batch. */
  lemma PerturbRoundTrip(batch: seq<Volume>, ts: seq<Transform>)
    requires |ts| == |batch|
    requires forall i :: 0 <= i < |batch| ==> ValidTransform(ts[i]) && IsCube(batch[i])
    ensures var inv := seq(|ts|, i requires 0 <= i < |ts| => Inverse(ts[i]));
            Perturb(Perturb(batch, ts), inv) == batch
  {
    var inv := seq(|ts|, i requires 0 <= i < |ts| => Inverse(ts[i]));
    var once := Perturb(batch, ts);
    forall i | 0 <= i < |batch|
      ensures PerturbVolume(inv[i], once[i]) == batch[i]
    {
      PerturbVolumeRoundTrip(ts[i], batch[i]);
    }
  }
}
