/**
 One test-time-augmentation round of `process_voxels`: the seven multi-output
 slot predictions and two single-output predictions, their rescaling, the
 truncation of slot 6, the choice of columns per task and the linear blend with
 the fixed regression coefficients. The predictions themselves are inputs.
 */
module Ensemble {
  import opened Stats

  /** One value per nodule. */
  type Column = seq<real>

  /** The output groups of a multi-output model, in the order
      diameter, lobulation, spiculation, malignancy (and any further ones). */
  type MultiOutput = seq<Column>

  /** The predictions of one round: seven multi-output slots (the fine-tuned
      model occupies slots 4 and 5) and two malignancy-only models. */
  datatype Round = Round(multi: seq<MultiOutput>, single: seq<Column>)

  /** The ways a round fails in the script. */
  datatype RoundError =
    | MissingOutput(slot: nat, groups: nat)   // IndexError: a slot has too few output groups
    | TruncationAssert(groups: nat)           // the `assert` on slot 6 fails

  datatype Result<T> = Ok(value: T) | Err(error: RoundError)

  const MultiSlots: nat := 7
  const SingleSlots: nat := 2
  const Tasks: nat := 4
  const Diameter: nat := 0
  const Malignancy: nat := 3
  /** Models trained on the 0-5 rating scale; their outputs are divided by 5. */
  const ScaleDivisor: real := 5.0
  const ScaledSlots: seq<nat> := [1, 3, 4, 5]
  const ScaledSingle: nat := 1
  /** The slot whose model has more than four output groups. */
  const TruncatedSlot: nat := 6
  /** The slots whose groups feed the blend, in column order; slot 4 is not among them. */
  const BlendSlots: seq<nat> := [0, 1, 2, 3, 5, 6]

  const DiameterCoefs: seq<real> := [0.49502715, 0.04357547, 0.13213973, 0.0, 0.13237931, 0.23392186]
  const LobulationCoefs: seq<real> := [0.0, 0.74029565, 0.01063934, 0.18729332, 0.02203343, 0.13645789]
  const SpiculationCoefs: seq<real> := [0.33892995, 0.27719817, 0.01419351, 0.21342018, 0.16956094, 0.05932272]
  const MalignancyCoefs: seq<real> := [0.214, 0.0968, 0.02, 0.16, 0.0715, 0.0023, 0.359, 0.130]

  function Coefs(task: nat): (c: seq<real>)
    requires task < Tasks
    ensures |c| == (if task == Malignancy then |BlendSlots| + SingleSlots else |BlendSlots|)
    ensures forall i :: 0 <= i < |c| ==> c[i] >= 0.0
  {
    [DiameterCoefs, LobulationCoefs, SpiculationCoefs, MalignancyCoefs][task]
  }

  /** Every column of the round has one value per nodule (the model contract). */
  predicate Shaped(r: Round, n: nat)
  {
    && |r.multi| == MultiSlots
    && |r.single| == SingleSlots
    && (forall s, g :: 0 <= s < |r.multi| && 0 <= g < |r.multi[s]| ==> |r.multi[s][g]| == n)
    && (forall s :: 0 <= s < |r.single| ==> |r.single[s]| == n)
  }

  /** The round goes through: every slot has the four groups the script reads,
      and slot 6 has more than four. */
  predicate Usable(multi: seq<MultiOutput>)
  {
    && |multi| == MultiSlots
    && (forall s :: 0 <= s < TruncatedSlot ==> |multi[s]| >= Tasks)
    && |multi[TruncatedSlot]| > Tasks
  }

  function Rescale(c: Column): (r: Column)
    ensures |r| == |c|
    ensures forall j :: 0 <= j < |c| ==> r[j] * ScaleDivisor == c[j]
  {
    seq(|c|, j requires 0 <= j < |c| => c[j] / ScaleDivisor)
  }

  /** A rating on the 0-5 scale lands in [0, 1]. */
  lemma RescaleToUnit(c: Column)
    requires forall j :: 0 <= j < |c| ==> 0.0 <= c[j] <= ScaleDivisor
    ensures forall j :: 0 <= j < |c| ==> 0.0 <= Rescale(c)[j] <= 1.0
  {
  }

  /** Divide groups 1-3 by 5; group 0 (diameter) and any later group are kept. */
  function RescaleGroups(p: MultiOutput): (r: MultiOutput)
    requires |p| >= Tasks
    ensures |r| == |p|
    ensures r[Diameter] == p[Diameter]
    ensures forall g :: 1 <= g < Tasks ==>
              |r[g]| == |p[g]| && forall j :: 0 <= j < |p[g]| ==> r[g][j] * ScaleDivisor == p[g][j]
    ensures r[Tasks..] == p[Tasks..]
  {
    [p[0], Rescale(p[1]), Rescale(p[2]), Rescale(p[3])] + p[Tasks..]
  }

  /** Rescale slots 1, 3, 4, 5 and cut slot 6 to its first four groups,
      failing where the script raises. */
  function NormaliseSlots(multi: seq<MultiOutput>): (r: Result<seq<MultiOutput>>)
    requires |multi| == MultiSlots
    ensures r.Ok? <==> (forall s :: s in ScaledSlots ==> |multi[s]| >= Tasks)
                       && |multi[TruncatedSlot]| > Tasks
    // the rescaling loop visits slots 1, 3, 4, 5 in turn and stops at the first short one
    ensures r.Err? && r.error.MissingOutput? ==>
              && r.error.slot in ScaledSlots && r.error.groups == |multi[r.error.slot]| < Tasks
              && forall s :: s in ScaledSlots && s < r.error.slot ==> |multi[s]| >= Tasks
    // the assert on slot 6 is reached only once every rescaled slot has its four groups
    ensures r.Err? && r.error.TruncationAssert? ==>
              && r.error.groups == |multi[TruncatedSlot]| <= Tasks
              && forall s :: s in ScaledSlots ==> |multi[s]| >= Tasks
    ensures r.Ok? ==> |r.value| == MultiSlots
                      && (forall i :: 0 <= i < |ScaledSlots| ==>
                            r.value[ScaledSlots[i]] == RescaleGroups(multi[ScaledSlots[i]]))
                      && r.value[0] == multi[0] && r.value[2] == multi[2]
                      && r.value[TruncatedSlot] == multi[TruncatedSlot][..Tasks]
  {
    if |multi[1]| < Tasks then Err(MissingOutput(1, |multi[1]|))
    else if |multi[3]| < Tasks then Err(MissingOutput(3, |multi[3]|))
    else if |multi[4]| < Tasks then Err(MissingOutput(4, |multi[4]|))
    else if |multi[5]| < Tasks then Err(MissingOutput(5, |multi[5]|))
    else if |multi[TruncatedSlot]| <= Tasks then Err(TruncationAssert(|multi[TruncatedSlot]|))
    else
      Ok([multi[0], RescaleGroups(multi[1]), multi[2], RescaleGroups(multi[3]),
          RescaleGroups(multi[4]), RescaleGroups(multi[5]), multi[TruncatedSlot][..Tasks]])
  }

  /** The single-output models: the second is divided by 5. */
  function NormaliseSingles(single: seq<Column>): (r: seq<Column>)
    requires |single| == SingleSlots
    ensures |r| == SingleSlots && r[0] == single[0] && r[ScaledSingle] == Rescale(single[ScaledSingle])
  {
    [single[0], Rescale(single[1])]
  }

  /** The columns feeding one task, in coefficient order: group `task` of the
      blend slots, then for malignancy the two single-output models. */
  function TaskColumns(norm: seq<MultiOutput>, singles: seq<Column>, task: nat): (cols: seq<Column>)
    requires |norm| == MultiSlots && |singles| == SingleSlots && task < Tasks
    requires forall i :: 0 <= i < |BlendSlots| ==> |norm[BlendSlots[i]]| >= Tasks
    ensures |cols| == |Coefs(task)|
    ensures forall i :: 0 <= i < |BlendSlots| ==> cols[i] == norm[BlendSlots[i]][task]
    ensures task == Malignancy ==> cols[|BlendSlots|..] == singles
  {
    var fromSlots := seq(|BlendSlots|, i requires 0 <= i < |BlendSlots| => norm[BlendSlots[i]][task]);
    if task == Malignancy then fromSlots + singles else fromSlots
  }

  /** The values of every column at nodule `j`. */
  function Row(cols: seq<Column>, j: nat): (x: seq<real>)
    requires forall i :: 0 <= i < |cols| ==> j < |cols[i]|
    ensures |x| == |cols|
  {
    seq(|cols|, i requires 0 <= i < |cols| => cols[i][j])
  }

  /** Weighted sum `c[0] * x[0] + ... + c[m-1] * x[m-1]`. */
  function Dot(c: seq<real>, x: seq<real>): real
    requires |c| == |x|
  {
    if |c| == 0 then 0.0 else c[0] * x[0] + Dot(c[1..], x[1..])
  }

  /** The blended prediction of every nodule. */
  function Blend(coefs: seq<real>, cols: seq<Column>, n: nat): (r: Column)
    requires |cols| == |coefs|
    requires forall i :: 0 <= i < |cols| ==> |cols[i]| == n
    ensures |r| == n
    ensures forall j :: 0 <= j < n ==> r[j] == Dot(coefs, Row(cols, j))
  {
    seq(n, j requires 0 <= j < n => Dot(coefs, Row(cols, j)))
  }

  lemma {:induction false} DotConstant(c: seq<real>, x: seq<real>, v: real)
    requires |c| == |x|
    requires forall i :: 0 <= i < |x| ==> x[i] == v
    ensures Dot(c, x) == Sum(c) * v
  {
    if |c| > 0 {
      DotConstant(c[1..], x[1..], v);
    }
  }

  /** With non-negative weights, raising the values never lowers the weighted sum. */
  lemma {:induction false} DotMonotone(c: seq<real>, x: seq<real>, y: seq<real>)
    requires |c| == |x| == |y|
    requires forall i :: 0 <= i < |c| ==> c[i] >= 0.0 && x[i] <= y[i]
    ensures Dot(c, x) <= Dot(c, y)
  {
    if |c| > 0 {
      DotMonotone(c[1..], x[1..], y[1..]);
      MulLeftMonotone(c[0], x[0], y[0]);
    }
  }

  lemma DotBounds(c: seq<real>, x: seq<real>, lo: real, hi: real)
    requires |c| == |x|
    requires forall i :: 0 <= i < |c| ==> c[i] >= 0.0 && lo <= x[i] <= hi
    ensures Sum(c) * lo <= Dot(c, x) <= Sum(c) * hi
  {
    var low := seq(|c|, i => lo);
    var high := seq(|c|, i => hi);
    DotMonotone(c, low, x);
    DotMonotone(c, x, high);
    DotConstant(c, low, lo);
    DotConstant(c, high, hi);
  }

  lemma MulLeftMonotone(c: real, a: real, b: real)
    requires c >= 0.0 && a <= b
    ensures c * a <= c * b
  {
    assert c * b - c * a == c * (b - a);
  }

  /** Where every model agrees on a value, the blend returns that value scaled by
      the coefficient total; coefficients summing to 1 return it exactly. */
  lemma BlendAgreement(coefs: seq<real>, cols: seq<Column>, n: nat, v: real)
    requires |cols| == |coefs|
    requires forall i :: 0 <= i < |cols| ==> |cols[i]| == n
    requires forall i, j :: 0 <= i < |cols| && 0 <= j < n ==> cols[i][j] == v
    ensures forall j :: 0 <= j < n ==> Blend(coefs, cols, n)[j] == Sum(coefs) * v
    ensures Sum(coefs) == 1.0 ==> forall j :: 0 <= j < n ==> Blend(coefs, cols, n)[j] == v
  {
    forall j | 0 <= j < n
      ensures Blend(coefs, cols, n)[j] == Sum(coefs) * v
    {
      DotConstant(coefs, Row(cols, j), v);
    }
  }

  /** With non-negative coefficients the blend stays within the coefficient total
      times the range of its inputs. */
  lemma BlendBounds(coefs: seq<real>, cols: seq<Column>, n: nat, lo: real, hi: real)
    requires |cols| == |coefs|
    requires forall i :: 0 <= i < |coefs| ==> coefs[i] >= 0.0
    requires forall i :: 0 <= i < |cols| ==> |cols[i]| == n
    requires forall i, j :: 0 <= i < |cols| && 0 <= j < n ==> lo <= cols[i][j] <= hi
    ensures forall j :: 0 <= j < n ==> Sum(coefs) * lo <= Blend(coefs, cols, n)[j] <= Sum(coefs) * hi
  {
    forall j | 0 <= j < n
      ensures Sum(coefs) * lo <= Blend(coefs, cols, n)[j] <= Sum(coefs) * hi
    {
      DotBounds(coefs, Row(cols, j), lo, hi);
    }
  }

  /** Normalised slots the blend can read: slots 0-3, 5 and 6 have the four groups. */
  predicate Blendable(norm: seq<MultiOutput>, n: nat)
  {
    && |norm| == MultiSlots
    && (forall i :: 0 <= i < |BlendSlots| ==> |norm[BlendSlots[i]]| >= Tasks)
    && (forall s, g :: 0 <= s < |norm| && 0 <= g < |norm[s]| ==> |norm[s][g]| == n)
  }

  /** The four blended tasks of a round. */
  function BlendTasks(norm: seq<MultiOutput>, singles: seq<Column>, n: nat): (out: seq<Column>)
    requires Blendable(norm, n)
    requires |singles| == SingleSlots && forall s :: 0 <= s < SingleSlots ==> |singles[s]| == n
    ensures |out| == Tasks && forall t :: 0 <= t < Tasks ==> |out[t]| == n
    ensures forall t, j :: 0 <= t < Tasks && 0 <= j < n ==>
              out[t][j] == Dot(Coefs(t), Row(TaskColumns(norm, singles, t), j))
  {
    seq(Tasks, t requires 0 <= t < Tasks => Blend(Coefs(t), TaskColumns(norm, singles, t), n))
  }

  /** A model output as the blend uses it: divided by 5 when it comes from a
      rescaled slot and is not the diameter group. */
  function AsBlended(slot: nat, task: nat, v: real): real
  {
    if slot in ScaledSlots && task != Diameter then v / ScaleDivisor else v
  }

  /**
   The inputs of task `t` for nodule `j`, read straight from the round's
   predictions in coefficient order: group `t` of slots 0, 1, 2, 3, 5, 6, then
   for malignancy the two single-output models, the second divided by 5.
   */
  function RoundInputs(r: Round, n: nat, t: nat, j: nat): (x: seq<real>)
    requires Shaped(r, n) && Usable(r.multi) && t < Tasks && j < n
    ensures |x| == |Coefs(t)|
  {
    var fromSlots := seq(|BlendSlots|, i requires 0 <= i < |BlendSlots| =>
                           AsBlended(BlendSlots[i], t, r.multi[BlendSlots[i]][t][j]));
    if t == Malignancy then fromSlots + [r.single[0][j], r.single[ScaledSingle][j] / ScaleDivisor]
    else fromSlots
  }

  /**
   One round: normalise, pick the columns, blend each of the four tasks. Each
   blended value is the coefficient-weighted sum of the round's inputs.
   */
  function BlendRound(r: Round, n: nat): (out: Result<seq<Column>>)
    requires Shaped(r, n)
    ensures out.Ok? <==> Usable(r.multi)
    ensures out.Ok? ==> |out.value| == Tasks && forall t :: 0 <= t < Tasks ==> |out.value[t]| == n
    ensures out.Ok? ==> forall t, j :: 0 <= t < Tasks && 0 <= j < n ==>
              out.value[t][j] == Dot(Coefs(t), RoundInputs(r, n, t, j))
    ensures out.Err? && out.error.MissingOutput? ==>
              out.error.slot < MultiSlots && |r.multi[out.error.slot]| < Tasks
  {
    match NormaliseSlots(r.multi)
    case Err(e) => Err(e)
    case Ok(norm) =>
      if |norm[0]| < Tasks || |norm[2]| < Tasks then
        var slot := if |norm[0]| <= |norm[2]| then 0 else 2;
        Err(MissingOutput(slot, |norm[slot]|))
      else
        var singles := NormaliseSingles(r.single);
        var out := BlendTasks(norm, singles, n);
        forall t, j | 0 <= t < Tasks && 0 <= j < n
          ensures Row(TaskColumns(norm, singles, t), j) == RoundInputs(r, n, t, j)
        {
          ColumnsAreInputs(r, n, t, j);
        }
        Ok(out)
  }

  /**
   Which error a failing round raises: a failure while rescaling or at the
   slot-6 assert is passed on unchanged; after those, the concatenations read
   group `t` of slot 0 before that of slot 2, task by task, so the short slot
   with fewer groups is reported, slot 0 on a tie.
   */
  lemma BlendRoundErrors(r: Round, n: nat)
    requires Shaped(r, n)
    ensures var out := BlendRound(r, n);
            out.Err? && NormaliseSlots(r.multi).Err? ==> out.error == NormaliseSlots(r.multi).error
    ensures var out := BlendRound(r, n);
            out.Err? && NormaliseSlots(r.multi).Ok? ==>
              && out.error.MissingOutput?
              && (out.error.slot == 0 || out.error.slot == 2)
              && out.error.groups == |r.multi[out.error.slot]| < Tasks
              && (out.error.slot == 0 <==> |r.multi[0]| <= |r.multi[2]|)
  {
  }

  /** The columns the normalised round hands to the blend hold, at nodule `j`,
      exactly the round's inputs. */
  lemma ColumnsAreInputs(r: Round, n: nat, t: nat, j: nat)
    requires Shaped(r, n) && Usable(r.multi) && t < Tasks && j < n
    ensures NormaliseSlots(r.multi).Ok?
    ensures var norm := NormaliseSlots(r.multi).value;
            Blendable(norm, n)
            && Row(TaskColumns(norm, NormaliseSingles(r.single), t), j) == RoundInputs(r, n, t, j)
  {
    var norm := NormaliseSlots(r.multi).value;
    var singles := NormaliseSingles(r.single);
    var row, x := Row(TaskColumns(norm, singles, t), j), RoundInputs(r, n, t, j);
    forall i | 0 <= i < |BlendSlots|
      ensures row[i] == x[i]
    {
      var s := BlendSlots[i];
      if s in ScaledSlots && t != Diameter {
        var k :| 0 <= k < |ScaledSlots| && ScaledSlots[k] == s;
        assert norm[s][t][j] * ScaleDivisor == r.multi[s][t][j];
      }
    }
    if t == Malignancy {
      assert row[|BlendSlots|] == singles[0][j];
      assert row[|BlendSlots| + 1] == singles[ScaledSingle][j];
    }
  }

  /** Every value of `x` is `v`. */
  predicate AllEqual(x: seq<real>, v: real)
  {
    forall i :: 0 <= i < |x| ==> x[i] == v
  }

  /** Where every input of a round agrees on `v`, each blended value is `v`
      times its task's coefficient total. */
  lemma BlendRoundAgreement(r: Round, n: nat, v: real)
    requires Shaped(r, n) && Usable(r.multi)
    requires forall t, j :: 0 <= t < Tasks && 0 <= j < n ==> AllEqual(RoundInputs(r, n, t, j), v)
    ensures BlendRound(r, n).Ok?
    ensures forall t, j :: 0 <= t < Tasks && 0 <= j < n ==>
              BlendRound(r, n).value[t][j] == CoefficientTotal(t) * v
  {
    forall t, j | 0 <= t < Tasks && 0 <= j < n
      ensures BlendRound(r, n).value[t][j] == CoefficientTotal(t) * v
    {
      TotalOfAgreeing(t, RoundInputs(r, n, t, j), v, BlendRound(r, n).value[t][j]);
    }
  }

  /** A blend of inputs that all equal `v` is `v` times the coefficient total. */
  lemma TotalOfAgreeing(t: nat, x: seq<real>, v: real, y: real)
    requires t < Tasks && |x| == |Coefs(t)| && AllEqual(x, v) && y == Dot(Coefs(t), x)
    ensures y == CoefficientTotal(t) * v
  {
    // one task at a time: each literal coefficient list is summed on its own
    if t == Diameter {
      DiameterAgreement(x, v, y);
    } else if t == 1 {
      LobulationAgreement(x, v, y);
    } else if t == 2 {
      SpiculationAgreement(x, v, y);
    } else {
      MalignancyAgreement(x, v, y);
    }
  }

  /** The sum of each task's coefficients; none of them is 1, so agreeing
      inputs come out slightly enlarged. */
  function CoefficientTotal(t: nat): real
    requires t < Tasks
  {
    [1.03704352, 1.09671963, 1.07262547, 1.0536][t]
  }

  lemma DiameterAgreement(x: seq<real>, v: real, y: real)
    requires |x| == |DiameterCoefs| && AllEqual(x, v) && y == Dot(DiameterCoefs, x)
    ensures y == CoefficientTotal(Diameter) * v
  {
    assert Sum(DiameterCoefs) == CoefficientTotal(Diameter);
    DotConstant(DiameterCoefs, x, v);
  }

  lemma LobulationAgreement(x: seq<real>, v: real, y: real)
    requires |x| == |LobulationCoefs| && AllEqual(x, v) && y == Dot(LobulationCoefs, x)
    ensures y == CoefficientTotal(1) * v
  {
    assert Sum(LobulationCoefs) == CoefficientTotal(1);
    DotConstant(LobulationCoefs, x, v);
  }

  lemma SpiculationAgreement(x: seq<real>, v: real, y: real)
    requires |x| == |SpiculationCoefs| && AllEqual(x, v) && y == Dot(SpiculationCoefs, x)
    ensures y == CoefficientTotal(2) * v
  {
    assert Sum(SpiculationCoefs) == CoefficientTotal(2);
    DotConstant(SpiculationCoefs, x, v);
  }

  lemma MalignancyAgreement(x: seq<real>, v: real, y: real)
    requires |x| == |MalignancyCoefs| && AllEqual(x, v) && y == Dot(MalignancyCoefs, x)
    ensures y == CoefficientTotal(Malignancy) * v
  {
    assert Sum(MalignancyCoefs) == CoefficientTotal(Malignancy);
    DotConstant(MalignancyCoefs, x, v);
  }

  /** Slot 4 only occupies a place: replacing its prediction by any other with
      enough groups leaves the blended round unchanged. */
  lemma Slot4Unused(r: Round, other: MultiOutput, n: nat)
    requires Shaped(r, n)
    requires |r.multi[4]| >= Tasks && |other| >= Tasks
    requires forall g :: 0 <= g < |other| ==> |other[g]| == n
    ensures Shaped(r.(multi := r.multi[4 := other]), n)
    ensures BlendRound(r.(multi := r.multi[4 := other]), n) == BlendRound(r, n)
  {
    var r' := r.(multi := r.multi[4 := other]);
    match NormaliseSlots(r.multi)
    case Err(e) =>
    case Ok(norm) =>
      var norm' := NormaliseSlots(r'.multi).value;
      if |norm[0]| >= Tasks && |norm[2]| >= Tasks {
        BlendIgnoresSlot4(norm, norm', NormaliseSingles(r.single), n);
      }
  }

  lemma BlendIgnoresSlot4(norm: seq<MultiOutput>, norm': seq<MultiOutput>, singles: seq<Column>, n: nat)
    requires Blendable(norm, n) && Blendable(norm', n)
    requires |singles| == SingleSlots && forall s :: 0 <= s < SingleSlots ==> |singles[s]| == n
    requires forall i :: 0 <= i < |BlendSlots| ==> norm'[BlendSlots[i]] == norm[BlendSlots[i]]
    ensures BlendTasks(norm', singles, n) == BlendTasks(norm, singles, n)
  {
    forall t | 0 <= t < Tasks
      ensures TaskColumns(norm', singles, t) == TaskColumns(norm, singles, t)
    {
    }
  }
}
