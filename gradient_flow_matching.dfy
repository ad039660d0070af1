/**
 * The fitting loop of gradient flow matching: an origin-destination matrix
 * W of shape (Z², 24) is fitted so that the link flows TAM·W match the
 * counted flows on the sensor rows. Tensors are sequences of reals; the
 * random initial values and the Adam update are parameters.
 */
module GradientFlowMatching {
  import opened Wrappers
  import FlowSimDataset

  const Hours: nat := 24

  type Matrix = seq<seq<real>>

  predicate IsMatrix(m: Matrix, rows: nat, cols: nat) {
    |m| == rows && forall i :: 0 <= i < rows ==> |m[i]| == cols
  }

  // ---------------------------------------------------------------------------
  // Shapes
  // ---------------------------------------------------------------------------

  /** The traffic assignment matrix as get_TAM returns it: E rows of Z × Z. */
  predicate TamShape(tam: seq<seq<seq<real>>>, z: int) {
    z >= 0 && forall e :: 0 <= e < |tam| ==> |tam[e]| == z && forall c :: 0 <= c < z ==> |tam[e][c]| == z
  }

  /** Row-major position of cell (c1, c2) among Z × Z cells. */
  function CellIndex(c1: int, c2: int, z: int): int {
    c1 * z + c2
  }

  /** The cell at a row-major position. */
  function CellOf(k: int, z: int): (int, int)
    requires z > 0
  {
    (k / z, k % z)
  }

  lemma MulAtLeast(a: int, z: int)
    requires a >= 1 && z >= 0
    ensures a * z >= z
  {
  }

  /** Row-major positions and cells correspond one to one. */
  lemma CellBijection(z: int)
    requires z > 0
    ensures forall c1, c2 :: 0 <= c1 < z && 0 <= c2 < z ==>
      0 <= CellIndex(c1, c2, z) < z * z && CellOf(CellIndex(c1, c2, z), z) == (c1, c2)
    ensures forall k :: 0 <= k < z * z ==>
      0 <= CellOf(k, z).0 < z && 0 <= CellOf(k, z).1 < z && CellIndex(CellOf(k, z).0, CellOf(k, z).1, z) == k
  {
    forall c1, c2 | 0 <= c1 < z && 0 <= c2 < z
      ensures 0 <= CellIndex(c1, c2, z) < z * z && CellOf(CellIndex(c1, c2, z), z) == (c1, c2)
    {
      CellFromIndex(c1, c2, z);
    }
    forall k | 0 <= k < z * z
      ensures 0 <= CellOf(k, z).0 < z && 0 <= CellOf(k, z).1 < z && CellIndex(CellOf(k, z).0, CellOf(k, z).1, z) == k
    {
      IndexFromCell(k, z);
    }
  }

  lemma CellIndexInRange(c1: int, c2: int, z: int)
    requires 0 <= c1 < z && 0 <= c2 < z
    ensures 0 <= CellIndex(c1, c2, z) < z * z
  {
    assert c1 * z <= (z - 1) * z by {
      if c1 < z - 1 {
        MulAtLeast(z - 1 - c1, z);
      }
    }
    assert (z - 1) * z == z * z - z;
  }

  lemma CellIndicesInRange(z: int)
    ensures forall c1, c2 :: 0 <= c1 < z && 0 <= c2 < z ==> 0 <= CellIndex(c1, c2, z) < z * z
  {
    forall c1, c2 | 0 <= c1 < z && 0 <= c2 < z
      ensures 0 <= CellIndex(c1, c2, z) < z * z
    {
      CellIndexInRange(c1, c2, z);
    }
  }

  lemma CellFromIndex(c1: int, c2: int, z: int)
    requires 0 <= c1 < z && 0 <= c2 < z
    ensures 0 <= CellIndex(c1, c2, z) < z * z && CellOf(CellIndex(c1, c2, z), z) == (c1, c2)
  {
    CellIndexInRange(c1, c2, z);
    var k := c1 * z + c2;
    var q, r := k / z, k % z;
    assert k == q * z + r && 0 <= r < z;
    assert (q - c1) * z == c2 - r;
    if q > c1 {
      MulAtLeast(q - c1, z);
    } else if q < c1 {
      MulAtLeast(c1 - q, z);
    }
  }

  lemma IndexFromCell(k: int, z: int)
    requires z > 0 && 0 <= k < z * z
    ensures 0 <= CellOf(k, z).0 < z && 0 <= CellOf(k, z).1 < z && CellIndex(CellOf(k, z).0, CellOf(k, z).1, z) == k
  {
    var q := k / z;
    assert k == q * z + k % z;
    assert q < z;
  }

  /** The rows of a matrix one after the other. */
  function Concat(cells: seq<seq<real>>): seq<real> {
    if cells == [] then [] else cells[0] + Concat(cells[1..])
  }

  lemma {:induction false} ConcatIndex(cells: seq<seq<real>>, z: int, c1: int, c2: int)
    requires z >= 0 && forall c :: 0 <= c < |cells| ==> |cells[c]| == z
    requires 0 <= c1 < |cells| && 0 <= c2 < z
    ensures |Concat(cells)| == |cells| * z
    ensures 0 <= CellIndex(c1, c2, z) < |Concat(cells)| && Concat(cells)[CellIndex(c1, c2, z)] == cells[c1][c2]
  {
    ConcatLength(cells, z);
    ConcatLength(cells[1..], z);
    if c1 > 0 {
      ConcatIndex(cells[1..], z, c1 - 1, c2);
      assert CellIndex(c1, c2, z) == z + CellIndex(c1 - 1, c2, z);
    }
  }

  lemma {:induction false} ConcatLength(cells: seq<seq<real>>, z: int)
    requires z >= 0 && forall c :: 0 <= c < |cells| ==> |cells[c]| == z
    ensures |Concat(cells)| == |cells| * z
  {
    if cells != [] {
      ConcatLength(cells[1..], z);
      assert |cells| * z == z + (|cells| - 1) * z;
    }
  }

  lemma ConcatCells(cells: seq<seq<real>>, z: int)
    requires z >= 0 && |cells| == z && forall c :: 0 <= c < z ==> |cells[c]| == z
    ensures |Concat(cells)| == z * z
    ensures forall c1, c2 :: 0 <= c1 < z && 0 <= c2 < z ==>
      0 <= CellIndex(c1, c2, z) < z * z && Concat(cells)[CellIndex(c1, c2, z)] == cells[c1][c2]
  {
    ConcatLength(cells, z);
    forall c1, c2 | 0 <= c1 < z && 0 <= c2 < z
      ensures 0 <= CellIndex(c1, c2, z) < z * z && Concat(cells)[CellIndex(c1, c2, z)] == cells[c1][c2]
    {
      ConcatIndex(cells, z, c1, c2);
    }
  }

  /** TAM.reshape(-1, Z²): entry (e, c1, c2) moves to row e, column c1·Z + c2. */
  function FlattenTam(tam: seq<seq<seq<real>>>, z: int): (r: Matrix)
    requires TamShape(tam, z)
    ensures IsMatrix(r, |tam|, z * z)
  {
    FlattenLengths(tam, z);
    seq(|tam|, e requires 0 <= e < |tam| => Concat(tam[e]))
  }

  lemma FlattenLengths(tam: seq<seq<seq<real>>>, z: int)
    requires TamShape(tam, z)
    ensures forall e :: 0 <= e < |tam| ==> |Concat(tam[e])| == z * z
  {
    forall e | 0 <= e < |tam|
      ensures |Concat(tam[e])| == z * z
    {
      ConcatLength(tam[e], z);
    }
  }

  /** In row e of the flattened TAM, column c1·Z + c2 holds entry (e, c1, c2). */
  lemma FlattenTamCells(tam: seq<seq<seq<real>>>, z: int, e: int)
    requires TamShape(tam, z) && 0 <= e < |tam|
    ensures forall c1, c2 :: 0 <= c1 < z && 0 <= c2 < z ==>
      0 <= CellIndex(c1, c2, z) < z * z && FlattenTam(tam, z)[e][CellIndex(c1, c2, z)] == tam[e][c1][c2]
  {
    ConcatCells(tam[e], z);
  }

  /** best_model.reshape(Z, Z, 24): row c1·Z + c2 becomes the 24 hours of cell (c1, c2). */
  function Unflatten(w: Matrix, z: int): (f: seq<seq<seq<real>>>)
    requires z >= 0 && IsMatrix(w, z * z, Hours)
    ensures |f| == z && forall c1 :: 0 <= c1 < z ==> |f[c1]| == z
    ensures forall c1, c2 :: 0 <= c1 < z && 0 <= c2 < z ==> 0 <= CellIndex(c1, c2, z) < z * z && f[c1][c2] == w[CellIndex(c1, c2, z)]
  {
    CellIndicesInRange(z);
    seq(z, c1 requires 0 <= c1 < z => seq(z, c2 requires 0 <= c2 < z => w[CellIndex(c1, c2, z)]))
  }

  // ---------------------------------------------------------------------------
  // The forward pass
  // ---------------------------------------------------------------------------

  function Max0(x: real): real {
    if x < 0.0 then 0.0 else x
  }

  /** clamp_(0, inf): negative entries become zero, the others stay. */
  function Clamp(m: Matrix): (c: Matrix)
    ensures |c| == |m| && forall i :: 0 <= i < |m| ==> |c[i]| == |m[i]|
    ensures forall i, j :: 0 <= i < |m| && 0 <= j < |m[i]| ==> c[i][j] >= 0.0 && (m[i][j] >= 0.0 ==> c[i][j] == m[i][j])
  {
    seq(|m|, i requires 0 <= i < |m| => seq(|m[i]|, j requires 0 <= j < |m[i]| => Max0(m[i][j])))
  }

  /** The sum of a[k] · b[k][j] over the first n terms. */
  function Dot(a: seq<real>, b: Matrix, j: nat, n: nat): real
    requires n <= |a| && n <= |b| && forall k :: 0 <= k < n ==> j < |b[k]|
  {
    if n == 0 then 0.0 else Dot(a, b, j, n - 1) + a[n - 1] * b[n - 1][j]
  }

  /** torch.matmul of an (rows × inner) and an (inner × cols) matrix. */
  function MatMul(a: Matrix, b: Matrix, inner: nat, cols: nat): (r: Matrix)
    requires IsMatrix(a, |a|, inner) && IsMatrix(b, inner, cols)
    ensures IsMatrix(r, |a|, cols)
  {
    seq(|a|, i requires 0 <= i < |a| => seq(cols, j requires 0 <= j < cols => Dot(a[i], b, j, inner)))
  }

  lemma {:induction false} DotNonNegative(a: seq<real>, b: Matrix, j: nat, n: nat)
    requires n <= |a| && n <= |b| && forall k :: 0 <= k < n ==> j < |b[k]|
    requires forall k :: 0 <= k < n ==> a[k] >= 0.0 && b[k][j] >= 0.0
    ensures Dot(a, b, j, n) >= 0.0
  {
    if n > 0 {
      DotNonNegative(a, b, j, n - 1);
    }
  }

  /** With a non-negative assignment matrix, the clamped W yields non-negative link flows. */
  lemma ForwardNonNegative(tam: Matrix, w: Matrix, inner: nat)
    requires IsMatrix(tam, |tam|, inner) && IsMatrix(w, inner, Hours)
    requires forall e, k :: 0 <= e < |tam| && 0 <= k < inner ==> tam[e][k] >= 0.0
    ensures var r := MatMul(tam, Clamp(w), inner, Hours);
      IsMatrix(r, |tam|, Hours) && forall e, h :: 0 <= e < |tam| && 0 <= h < Hours ==> r[e][h] >= 0.0
  {
    var c := Clamp(w);
    forall e, h | 0 <= e < |tam| && 0 <= h < Hours
      ensures MatMul(tam, c, inner, Hours)[e][h] >= 0.0
    {
      DotNonNegative(tam[e], c, h, inner);
    }
  }

  // ---------------------------------------------------------------------------
  // Loss
  // ---------------------------------------------------------------------------

  /** Every sensor index names a row. */
  predicate Rows(idxs: seq<int>, rows: nat) {
    forall i :: 0 <= i < |idxs| ==> 0 <= idxs[i] < rows
  }

  function Abs(x: real): real {
    if x < 0.0 then -x else x
  }

  /** The squared differences of the first n entries of two rows. */
  function RowSq(r: seq<real>, t: seq<real>, n: nat): real
    requires n <= |r| && n <= |t|
  {
    if n == 0 then 0.0 else RowSq(r, t, n - 1) + (r[n - 1] - t[n - 1]) * (r[n - 1] - t[n - 1])
  }

  /** The absolute differences of the first n entries of two rows. */
  function RowAbs(r: seq<real>, t: seq<real>, n: nat): real
    requires n <= |r| && n <= |t|
  {
    if n == 0 then 0.0 else RowAbs(r, t, n - 1) + Abs(r[n - 1] - t[n - 1])
  }

  predicate Comparable(r: Matrix, t: Matrix, idxs: seq<int>) {
    IsMatrix(r, |r|, Hours) && IsMatrix(t, |r|, Hours) && Rows(idxs, |r|)
  }

  /** The squared error summed over the sensor rows, in order. */
  function SqError(r: Matrix, t: Matrix, idxs: seq<int>): real
    requires Comparable(r, t, idxs)
  {
    if idxs == [] then 0.0
    else
      var i := idxs[|idxs| - 1];
      SqError(r, t, idxs[..|idxs| - 1]) + RowSq(r[i], t[i], Hours)
  }

  /** The absolute error summed over the sensor rows, in order. */
  function AbsError(r: Matrix, t: Matrix, idxs: seq<int>): real
    requires Comparable(r, t, idxs)
  {
    if idxs == [] then 0.0
    else
      var i := idxs[|idxs| - 1];
      AbsError(r, t, idxs[..|idxs| - 1]) + RowAbs(r[i], t[i], Hours)
  }

  /** mse_loss(R[sensor_idxs], TARGET[sensor_idxs]). */
  function Mse(r: Matrix, t: Matrix, idxs: seq<int>): real
    requires Comparable(r, t, idxs) && |idxs| > 0
  {
    SqError(r, t, idxs) / ((|idxs| * Hours) as real)
  }

  /** The logged mean absolute deviation: the absolute error over the number of sensor entries. */
  function Mad(r: Matrix, t: Matrix, idxs: seq<int>): real
    requires Comparable(r, t, idxs) && |idxs| > 0
  {
    AbsError(r, t, idxs) / ((|idxs| * Hours) as real)
  }

  lemma {:induction false} RowSqZero(r: seq<real>, t: seq<real>, n: nat)
    requires n <= |r| && n <= |t|
    ensures RowSq(r, t, n) >= 0.0
    ensures r[..n] == t[..n] ==> RowSq(r, t, n) == 0.0
  {
    if n > 0 {
      RowSqZero(r, t, n - 1);
      assert (r[n - 1] - t[n - 1]) * (r[n - 1] - t[n - 1]) >= 0.0;
      if r[..n] == t[..n] {
        assert r[..n][..n - 1] == r[..n - 1] && t[..n][..n - 1] == t[..n - 1];
        assert r[..n][n - 1] == t[..n][n - 1];
      }
    }
  }

  lemma {:induction false} RowAbsZero(r: seq<real>, t: seq<real>, n: nat)
    requires n <= |r| && n <= |t|
    ensures RowAbs(r, t, n) >= 0.0
    ensures RowAbs(r, t, n) == 0.0 <==> r[..n] == t[..n]
  {
    if n > 0 {
      RowAbsZero(r, t, n - 1);
      assert r[..n] == r[..n - 1] + [r[n - 1]] && t[..n] == t[..n - 1] + [t[n - 1]];
      if r[..n] == t[..n] {
        assert r[..n][..n - 1] == r[..n - 1] && t[..n][..n - 1] == t[..n - 1];
        assert r[..n][n - 1] == t[..n][n - 1];
      }
    }
  }

  lemma {:induction false} SqErrorZero(r: Matrix, t: Matrix, idxs: seq<int>)
    requires Comparable(r, t, idxs)
    ensures SqError(r, t, idxs) >= 0.0
    ensures (forall k :: 0 <= k < |idxs| ==> r[idxs[k]] == t[idxs[k]]) ==> SqError(r, t, idxs) == 0.0
  {
    if idxs != [] {
      var n := |idxs| - 1;
      var i := idxs[n];
      SqErrorZero(r, t, idxs[..n]);
      RowSqZero(r[i], t[i], Hours);
      assert r[i][..Hours] == r[i] && t[i][..Hours] == t[i];
      assert forall k :: 0 <= k < n ==> idxs[..n][k] == idxs[k];
    }
  }

  lemma {:induction false} AbsErrorZero(r: Matrix, t: Matrix, idxs: seq<int>)
    requires Comparable(r, t, idxs)
    ensures AbsError(r, t, idxs) >= 0.0
    ensures AbsError(r, t, idxs) == 0.0 <==> forall k :: 0 <= k < |idxs| ==> r[idxs[k]] == t[idxs[k]]
  {
    if idxs != [] {
      var n := |idxs| - 1;
      var i := idxs[n];
      AbsErrorZero(r, t, idxs[..n]);
      RowAbsZero(r[i], t[i], Hours);
      assert r[i][..Hours] == r[i] && t[i][..Hours] == t[i];
      assert forall k :: 0 <= k < n ==> idxs[..n][k] == idxs[k];
    }
  }

  /** The loss is non-negative, and zero when every sensor row of the flows equals its target. */
  lemma MseZero(r: Matrix, t: Matrix, idxs: seq<int>)
    requires Comparable(r, t, idxs) && |idxs| > 0
    ensures Mse(r, t, idxs) >= 0.0
    ensures (forall k :: 0 <= k < |idxs| ==> r[idxs[k]] == t[idxs[k]]) ==> Mse(r, t, idxs) == 0.0
  {
    SqErrorZero(r, t, idxs);
  }

  /** The logged deviation is non-negative, and zero exactly when every sensor row of the flows equals its target. */
  lemma MadZero(r: Matrix, t: Matrix, idxs: seq<int>)
    requires Comparable(r, t, idxs) && |idxs| > 0
    ensures Mad(r, t, idxs) >= 0.0
    ensures Mad(r, t, idxs) == 0.0 <==> forall k :: 0 <= k < |idxs| ==> r[idxs[k]] == t[idxs[k]]
  {
    AbsErrorZero(r, t, idxs);
  }

  // ---------------------------------------------------------------------------
  // The training loop
  // ---------------------------------------------------------------------------

  /** The fitting problem: the flattened TAM (E × Z²), the targets (E × 24) and the sensor rows. */
  datatype Problem = Problem(tam: Matrix, target: Matrix, sensors: seq<int>, z2: nat)

  predicate Valid(p: Problem) {
    IsMatrix(p.tam, |p.tam|, p.z2) && IsMatrix(p.target, |p.tam|, Hours) && Rows(p.sensors, |p.tam|) && |p.sensors| > 0
  }

  /** The command line's cluster count and intervals. */
  datatype Config = Config(numClusters: int, trainingSteps: int, logInterval: int, saveInterval: int)

  /** optimizer.step: the updated parameter from the clamped one at a given step. */
  type Optimizer = (Matrix, nat) -> Matrix

  ghost predicate KeepsShape(adam: Optimizer, z2: nat) {
    forall w, t :: IsMatrix(w, z2, Hours) ==> IsMatrix(adam(w, t), z2, Hours)
  }

  ghost predicate Setup(p: Problem, adam: Optimizer, w0: Matrix) {
    Valid(p) && KeepsShape(adam, p.z2) && IsMatrix(w0, p.z2, Hours)
  }

  datatype Best = Best(loss: real, model: Matrix)

  datatype LogEntry = LogEntry(step: nat, mse: real, mad: real)

  /** What torch.save writes: the best OD matrix and the current link flows. */
  datatype Snapshot = Snapshot(od: Matrix, linkFlows: Matrix)

  /** The loop's variables: W, the best loss and model, the last R, and what was logged and saved. */
  datatype Training = Training(w: Matrix, best: Option<Best>, flows: Matrix, logs: seq<LogEntry>, saves: seq<Snapshot>)

  predicate LogAt(cfg: Config, step: nat) {
    cfg.logInterval != 0 && step % cfg.logInterval == 0
  }

  predicate SaveAt(cfg: Config, step: nat) {
    step != 0 && cfg.saveInterval > 0 && step % cfg.saveInterval == 0
  }

  /** A strictly lower loss replaces the best so far, with the given model. */
  function Improve(best: Option<Best>, loss: real, model: Matrix): (r: Option<Best>)
    ensures r.Some? && (best.Some? ==> r.value.loss <= best.value.loss)
  {
    if best.None? || loss < best.value.loss then Some(Best(loss, model)) else best
  }

  /** One iteration of the loop body. */
  function Step(p: Problem, cfg: Config, adam: Optimizer, s: Training, step: nat): (n: Training)
    requires Valid(p) && KeepsShape(adam, p.z2) && IsMatrix(s.w, p.z2, Hours)
    ensures IsMatrix(n.w, p.z2, Hours)
  {
    var wc := Clamp(s.w);
    var r := MatMul(p.tam, wc, p.z2, Hours);
    var loss := Mse(r, p.target, p.sensors);
    var w := adam(wc, step);
    var best := Improve(s.best, loss, w);
    var logs := if LogAt(cfg, step) then s.logs + [LogEntry(step, loss, Mad(r, p.target, p.sensors))] else s.logs;
    var saves := if SaveAt(cfg, step) && best.Some? then s.saves + [Snapshot(best.value.model, r)] else s.saves;
    Training(w, best, r, logs, saves)
  }

  /** The loop's variables after t iterations. */
  function Trained(p: Problem, cfg: Config, adam: Optimizer, w0: Matrix, t: nat): (s: Training)
    requires Setup(p, adam, w0)
    ensures IsMatrix(s.w, p.z2, Hours)
  {
    if t == 0 then Training(w0, None, [], [], []) else Step(p, cfg, adam, Trained(p, cfg, adam, w0, t - 1), t - 1)
  }

  /** After the loop: W clamped once more, and a final save when a best model exists. */
  function Finish(s: Training): Training {
    var saves := if s.best.Some? then s.saves + [Snapshot(s.best.value.model, s.flows)] else s.saves;
    Training(Clamp(s.w), s.best, s.flows, s.logs, saves)
  }

  // The trajectory, stated independently of the loop.

  /** W before step t: the initial draw, then each step's update of the clamped W. */
  function Weights(p: Problem, adam: Optimizer, w0: Matrix, t: nat): (w: Matrix)
    requires Setup(p, adam, w0)
    ensures IsMatrix(w, p.z2, Hours)
  {
    if t == 0 then w0 else adam(Clamp(Weights(p, adam, w0, t - 1)), t - 1)
  }

  /** R at step t: the TAM times the W clamped just before the forward pass. */
  function Flows(p: Problem, adam: Optimizer, w0: Matrix, t: nat): (r: Matrix)
    requires Setup(p, adam, w0)
    ensures IsMatrix(r, |p.tam|, Hours)
  {
    MatMul(p.tam, Clamp(Weights(p, adam, w0, t)), p.z2, Hours)
  }

  function Loss(p: Problem, adam: Optimizer, w0: Matrix, t: nat): real
    requires Setup(p, adam, w0)
  {
    Mse(Flows(p, adam, w0, t), p.target, p.sensors)
  }

  /** The loop follows the trajectory: after t steps W is the t-th weight and R the last step's flows. */
  lemma {:induction false} TrainedFollows(p: Problem, cfg: Config, adam: Optimizer, w0: Matrix, t: nat)
    requires Setup(p, adam, w0)
    ensures Trained(p, cfg, adam, w0, t).w == Weights(p, adam, w0, t)
    ensures t > 0 ==> Trained(p, cfg, adam, w0, t).flows == Flows(p, adam, w0, t - 1)
  {
    if t > 0 {
      TrainedFollows(p, cfg, adam, w0, t - 1);
    }
  }

  /**
   * After t > 0 steps the best loss is the minimum of the losses of steps
   * 0..t-1, and the best model is the W after the optimizer step of the
   * first step that reached it (taken after the step, so not re-clamped).
   */
  lemma {:induction false} BestIsMinimum(p: Problem, cfg: Config, adam: Optimizer, w0: Matrix, t: nat)
    requires Setup(p, adam, w0)
    ensures var b := Trained(p, cfg, adam, w0, t).best;
      && (t == 0 <==> b.None?)
      && (t > 0 ==>
            && (forall j :: 0 <= j < t ==> b.value.loss <= Loss(p, adam, w0, j))
            && exists k :: 0 <= k < t && b.value.loss == Loss(p, adam, w0, k) && b.value.model == Weights(p, adam, w0, k + 1)
                           && forall j :: 0 <= j < k ==> Loss(p, adam, w0, j) > Loss(p, adam, w0, k))
  {
    if t > 0 {
      BestIsMinimum(p, cfg, adam, w0, t - 1);
      TrainedStep(p, cfg, adam, w0, t - 1);
      var prev := Trained(p, cfg, adam, w0, t - 1).best;
      var b := Trained(p, cfg, adam, w0, t).best;
      var loss := Loss(p, adam, w0, t - 1);
      if prev.None? || loss < prev.value.loss {
        assert b == Some(Best(loss, Weights(p, adam, w0, t)));
        assert forall j :: 0 <= j < t - 1 ==> Loss(p, adam, w0, j) >= prev.value.loss;
      } else {
        assert b == prev;
        var k :| 0 <= k < t - 1 && prev.value.loss == Loss(p, adam, w0, k) && prev.value.model == Weights(p, adam, w0, k + 1)
                 && forall j :: 0 <= j < k ==> Loss(p, adam, w0, j) > Loss(p, adam, w0, k);
      }
    }
  }

  /** The best loss never increases from one step to a later one. */
  lemma BestNeverIncreases(p: Problem, cfg: Config, adam: Optimizer, w0: Matrix, t1: nat, t2: nat)
    requires Setup(p, adam, w0) && 0 < t1 <= t2
    ensures Trained(p, cfg, adam, w0, t1).best.Some? && Trained(p, cfg, adam, w0, t2).best.Some?
    ensures Trained(p, cfg, adam, w0, t2).best.value.loss <= Trained(p, cfg, adam, w0, t1).best.value.loss
  {
    BestIsMinimum(p, cfg, adam, w0, t1);
    BestIsMinimum(p, cfg, adam, w0, t2);
  }

  /** The steps before t at which the loop logs, and at which it saves, in order. */
  function LogSteps(cfg: Config, t: nat): seq<nat> {
    if t == 0 then [] else LogSteps(cfg, t - 1) + (if LogAt(cfg, t - 1) then [t - 1] else [])
  }

  function SaveSteps(cfg: Config, t: nat): seq<nat> {
    if t == 0 then [] else SaveSteps(cfg, t - 1) + (if SaveAt(cfg, t - 1) then [t - 1] else [])
  }

  /** The save steps are exactly the steps s < t with s ≠ 0, a positive interval dividing s; in ascending order. */
  lemma {:induction false} SaveStepsExactly(cfg: Config, t: nat)
    ensures forall s: nat :: s in SaveSteps(cfg, t) <==> s < t && SaveAt(cfg, s)
    ensures forall i, j :: 0 <= i < j < |SaveSteps(cfg, t)| ==> SaveSteps(cfg, t)[i] < SaveSteps(cfg, t)[j]
  {
    if t > 0 {
      SaveStepsExactly(cfg, t - 1);
      var prev := SaveSteps(cfg, t - 1);
      assert forall i :: 0 <= i < |prev| ==> prev[i] in prev;
    }
  }

  /** The log steps are exactly the steps s < t divisible by the (non-zero) log interval, in ascending order. */
  lemma {:induction false} LogStepsExactly(cfg: Config, t: nat)
    ensures forall s: nat :: s in LogSteps(cfg, t) <==> s < t && LogAt(cfg, s)
    ensures forall i, j :: 0 <= i < j < |LogSteps(cfg, t)| ==> LogSteps(cfg, t)[i] < LogSteps(cfg, t)[j]
  {
    if t > 0 {
      LogStepsExactly(cfg, t - 1);
      var prev := LogSteps(cfg, t - 1);
      assert forall i :: 0 <= i < |prev| ==> prev[i] in prev;
    }
  }

  /** What step t adds to the best model, the saves and the logs. */
  lemma TrainedStep(p: Problem, cfg: Config, adam: Optimizer, w0: Matrix, t: nat)
    requires Setup(p, adam, w0)
    ensures var s := Trained(p, cfg, adam, w0, t); var n := Trained(p, cfg, adam, w0, t + 1);
      && n.best == Improve(s.best, Loss(p, adam, w0, t), Weights(p, adam, w0, t + 1))
      && n.saves == s.saves + (if SaveAt(cfg, t) && n.best.Some? then [Snapshot(n.best.value.model, Flows(p, adam, w0, t))] else [])
      && n.logs == s.logs + (if LogAt(cfg, t) then [LogEntry(t, Loss(p, adam, w0, t), Mad(Flows(p, adam, w0, t), p.target, p.sensors))] else [])
  {
    TrainedFollows(p, cfg, adam, w0, t);
  }

  /**
   * Each intermediate save belongs to one save step s: it holds the best
   * model after step s and the flows R of step s.
   */
  lemma {:induction false} SavesAtSchedule(p: Problem, cfg: Config, adam: Optimizer, w0: Matrix, t: nat)
    requires Setup(p, adam, w0)
    ensures var saves := Trained(p, cfg, adam, w0, t).saves;
      && |saves| == |SaveSteps(cfg, t)|
      && forall i :: 0 <= i < |saves| ==>
           var s := SaveSteps(cfg, t)[i];
           Trained(p, cfg, adam, w0, s + 1).best.Some?
           && saves[i] == Snapshot(Trained(p, cfg, adam, w0, s + 1).best.value.model, Flows(p, adam, w0, s))
  {
    SavesStepwise(p, cfg, adam, w0, t);
    SavesOfSchedule((s: nat) => Trained(p, cfg, adam, w0, s).saves, (s: nat) => SaveSnapshot(p, cfg, adam, w0, s), cfg, t);
    forall i | 0 <= i < |SaveSteps(cfg, t)| {
      SnapshotAfter(p, cfg, adam, w0, SaveSteps(cfg, t)[i]);
    }
  }

  /** The snapshot a save at step s writes: the best model after step s and the flows of step s. */
  ghost function SaveSnapshot(p: Problem, cfg: Config, adam: Optimizer, w0: Matrix, s: nat): Snapshot
    requires Setup(p, adam, w0)
  {
    var b := Trained(p, cfg, adam, w0, s + 1).best;
    Snapshot(if b.Some? then b.value.model else [], Flows(p, adam, w0, s))
  }

  /** Step by step, the saves grow by the step's snapshot exactly at the save steps. */
  lemma SavesStepwise(p: Problem, cfg: Config, adam: Optimizer, w0: Matrix, t: nat)
    requires Setup(p, adam, w0)
    ensures forall s: nat :: s < t ==>
      Trained(p, cfg, adam, w0, s + 1).saves
        == Trained(p, cfg, adam, w0, s).saves + (if SaveAt(cfg, s) then [SaveSnapshot(p, cfg, adam, w0, s)] else [])
  {
    forall s: nat | s < t {
      SaveStep(p, cfg, adam, w0, s);
    }
  }

  /** Step s appends its snapshot exactly when it is a save step. */
  lemma SaveStep(p: Problem, cfg: Config, adam: Optimizer, w0: Matrix, s: nat)
    requires Setup(p, adam, w0)
    ensures Trained(p, cfg, adam, w0, s + 1).saves
      == Trained(p, cfg, adam, w0, s).saves + (if SaveAt(cfg, s) then [SaveSnapshot(p, cfg, adam, w0, s)] else [])
  {
    TrainedStep(p, cfg, adam, w0, s);
  }

  /** After any step there is a best model, and the snapshot holds it with the step's flows. */
  lemma SnapshotAfter(p: Problem, cfg: Config, adam: Optimizer, w0: Matrix, s: nat)
    requires Setup(p, adam, w0)
    ensures Trained(p, cfg, adam, w0, s + 1).best.Some?
    ensures SaveSnapshot(p, cfg, adam, w0, s) == Snapshot(Trained(p, cfg, adam, w0, s + 1).best.value.model, Flows(p, adam, w0, s))
  {
    TrainedStep(p, cfg, adam, w0, s);
  }

  /** The saves of any run that adds the snapshot of step s exactly at the save steps s. */
  lemma {:induction false} SavesOfSchedule(saves: nat -> seq<Snapshot>, snap: nat -> Snapshot, cfg: Config, t: nat)
    requires saves(0) == []
    requires forall s: nat :: s < t ==> saves(s + 1) == saves(s) + (if SaveAt(cfg, s) then [snap(s)] else [])
    ensures |saves(t)| == |SaveSteps(cfg, t)|
    ensures forall i :: 0 <= i < |saves(t)| ==> saves(t)[i] == snap(SaveSteps(cfg, t)[i])
  {
    if t > 0 {
      SavesOfSchedule(saves, snap, cfg, t - 1);
      forall i | 0 <= i < |saves(t)| ensures saves(t)[i] == snap(SaveSteps(cfg, t)[i]) {
        if i < |saves(t - 1)| {
          assert saves(t)[i] == saves(t - 1)[i] && SaveSteps(cfg, t)[i] == SaveSteps(cfg, t - 1)[i];
        }
      }
    }
  }

  /** Each log entry belongs to one log step s and holds that step's loss and deviation. */
  lemma {:induction false} LogsAtSchedule(p: Problem, cfg: Config, adam: Optimizer, w0: Matrix, t: nat)
    requires Setup(p, adam, w0)
    ensures var logs := Trained(p, cfg, adam, w0, t).logs;
      && |logs| == |LogSteps(cfg, t)|
      && forall i :: 0 <= i < |logs| ==>
           var s := LogSteps(cfg, t)[i];
           logs[i] == LogEntry(s, Loss(p, adam, w0, s), Mad(Flows(p, adam, w0, s), p.target, p.sensors))
  {
    if t > 0 {
      LogsAtSchedule(p, cfg, adam, w0, t - 1);
      TrainedStep(p, cfg, adam, w0, t - 1);
    }
  }

  /** torch.rand(Z², 24), each entry given by draw. */
  function Rand(z2: nat, draw: (int, int) -> real): (w: Matrix)
    ensures IsMatrix(w, z2, Hours)
  {
    seq(z2, i => seq(Hours, j => draw(i, j)))
  }

  /** The number of iterations of range(training_steps). */
  function StepCount(cfg: Config): nat {
    if cfg.trainingSteps > 0 then cfg.trainingSteps else 0
  }

  function ProblemOf(tam: seq<seq<seq<real>>>, target: Matrix, sensors: seq<int>, z: int): Problem
    requires TamShape(tam, z)
  {
    Problem(FlattenTam(tam, z), target, sensors, z * z)
  }

  /**
   * main's fitting loop. The TAM has get_TAM's shape (E, Z, Z), the targets
   * are the dataset's 24 counts per link, and the sensor list is not empty.
   * A zero log interval raises ZeroDivisionError at the first step.
   */
  method Fit(tam: seq<seq<seq<real>>>, target: Matrix, sensors: seq<int>, cfg: Config, draw: (int, int) -> real, adam: Optimizer)
    returns (r: Result<Training>)
    requires TamShape(tam, cfg.numClusters) && IsMatrix(target, |tam|, Hours) && Rows(sensors, |tam|) && |sensors| > 0
    requires KeepsShape(adam, cfg.numClusters * cfg.numClusters)
    ensures r.Err? <==> StepCount(cfg) > 0 && cfg.logInterval == 0
    ensures r.Err? ==> r.error == ZeroDivisionError
    ensures r.Ok? ==>
      var p := ProblemOf(tam, target, sensors, cfg.numClusters);
      var w0 := Rand(cfg.numClusters * cfg.numClusters, draw);
      && Setup(p, adam, w0)
      && r.value == Finish(Trained(p, cfg, adam, w0, StepCount(cfg)))
      && r.value.w == Clamp(Weights(p, adam, w0, StepCount(cfg)))
      && |r.value.saves| == |SaveSteps(cfg, StepCount(cfg))| + (if StepCount(cfg) > 0 then 1 else 0)
  {
    var z2 := cfg.numClusters * cfg.numClusters;
    var w := Rand(z2, draw);
    ghost var w0 := w;
    var p := ProblemOf(tam, target, sensors, cfg.numClusters);
    var steps := StepCount(cfg);
    if steps > 0 && cfg.logInterval == 0 {
      return Err(ZeroDivisionError);
    }
    var best: Option<Best> := None;
    var flows: Matrix := [];
    var logs: seq<LogEntry> := [];
    var saves: seq<Snapshot> := [];
    for step := 0 to steps
      invariant Training(w, best, flows, logs, saves) == Trained(p, cfg, adam, w0, step)
    {
      w := Clamp(w);
      var rf := MatMul(p.tam, w, z2, Hours);
      var loss := Mse(rf, target, sensors);
      w := adam(w, step);
      if best.None? || loss < best.value.loss {
        best := Some(Best(loss, w));
      }
      if step % cfg.logInterval == 0 {
        logs := logs + [LogEntry(step, loss, Mad(rf, target, sensors))];
      }
      if step != 0 && cfg.saveInterval > 0 && step % cfg.saveInterval == 0 {
        if best.Some? {
          saves := saves + [Snapshot(best.value.model, rf)];
        }
      }
      flows := rf;
    }
    TrainedFollows(p, cfg, adam, w0, steps);
    SavesAtSchedule(p, cfg, adam, w0, steps);
    BestIsMinimum(p, cfg, adam, w0, steps);
    w := Clamp(w);
    if best.Some? {
      saves := saves + [Snapshot(best.value.model, flows)];
    }
    r := Ok(Training(w, best, flows, logs, saves));
  }

  lemma UnflattenCell(best: Matrix, z: int, k: int)
    requires z > 0 && IsMatrix(best, z * z, Hours) && 0 <= k < z * z
    ensures 0 <= CellOf(k, z).0 < z && 0 <= CellOf(k, z).1 < z
    ensures Unflatten(best, z)[CellOf(k, z).0][CellOf(k, z).1] == best[k]
  {
    IndexFromCell(k, z);
    var c1, c2 := k / z, k % z;
    assert Unflatten(best, z)[c1][c2] == best[CellIndex(c1, c2, z)];
  }

  /** The best model reshaped to (Z, Z, 24) is a flow tensor the plan writer accepts. */
  lemma UnflattenShape(z: int, best: Matrix)
    requires z >= 0 && IsMatrix(best, z * z, Hours)
    ensures FlowSimDataset.Shape(Unflatten(best, z), z, Hours)
  {
    var f := Unflatten(best, z);
    forall c1 | 0 <= c1 < z
      ensures |f[c1]| == z && forall c2 :: 0 <= c2 < z ==> |f[c1][c2]| == Hours
    {
      forall c2 | 0 <= c2 < z
        ensures |f[c1][c2]| == Hours
      {
        assert f[c1][c2] == best[CellIndex(c1, c2, z)];
      }
    }
  }

  /** Reshaping loses no row: row k of the best model is the cell (k / Z, k % Z). */
  lemma UnflattenCells(z: int, best: Matrix)
    requires z > 0 && IsMatrix(best, z * z, Hours)
    ensures forall k :: 0 <= k < z * z ==>
      && 0 <= CellOf(k, z).0 < z && 0 <= CellOf(k, z).1 < z
      && Unflatten(best, z)[CellOf(k, z).0][CellOf(k, z).1] == best[k]
  {
    forall k | 0 <= k < z * z
      ensures 0 <= CellOf(k, z).0 < z && 0 <= CellOf(k, z).1 < z
      ensures Unflatten(best, z)[CellOf(k, z).0][CellOf(k, z).1] == best[k]
    {
      UnflattenCell(best, z, k);
    }
  }
}
