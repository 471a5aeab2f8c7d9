/**
 * The linear model and the predict/update equations that both estimators
 * run, for a state of `n` entries made of (position, velocity) pairs, one
 * pair per axis. The estimators build their matrices from literals; the
 * definitions here are the entry formulas those literals are proved equal to.
 */
module KalmanEquations {
  import opened Matrices

  /** `pow(x, k)` for the whole exponents the estimators use. */
  function Pow(x: real, k: nat): (r: real)
    ensures k == 0 ==> r == 1.0
    ensures x == 1.0 ==> r == 1.0
    ensures x >= 0.0 ==> r >= 0.0
  {
    if k == 0 then 1.0
    else
      var p := Pow(x, k - 1);
      if x >= 0.0 then MulNonNegative(x, p); x * p else x * p
  }

  lemma MulNonNegative(a: real, b: real)
    requires a >= 0.0 && b >= 0.0
    ensures a * b >= 0.0
  {}

  /** Constant-velocity kinematics: each axis is the block [[1, dt], [0, 1]]. */
  function TransitionEntry(dt: real, i: nat, j: nat): real {
    if i == j then 1.0 else if i % 2 == 0 && j == i + 1 then dt else 0.0
  }

  /** Unmodelled acceleration: each axis is the block sigma * [[dt^4/4, dt^3/2], [dt^3/2, dt^2]]. */
  function NoiseEntry(sigma: real, dt: real, i: nat, j: nat): real {
    if i / 2 != j / 2 then 0.0
    else if i % 2 == 0 && j % 2 == 0 then sigma * (Pow(dt, 4) / 4.0)
    else if i % 2 != j % 2 then sigma * (Pow(dt, 3) / 2.0)
    else sigma * Pow(dt, 2)
  }

  function Transition(n: nat, dt: real): (a: Matrix)
    ensures a.HasShape(n, n)
    ensures forall i, j | 0 <= i < n && 0 <= j < n :: a.grid[i][j] == TransitionEntry(dt, i, j)
  {
    Matrix(n, n, seq(n, i requires 0 <= i => seq(n, j requires 0 <= j => TransitionEntry(dt, i, j))))
  }

  function ProcessNoise(n: nat, sigma: real, dt: real): (q: Matrix)
    ensures q.HasShape(n, n)
    ensures forall i, j | 0 <= i < n && 0 <= j < n :: q.grid[i][j] == NoiseEntry(sigma, dt, i, j)
    ensures Symmetric(q)
  {
    Matrix(n, n, seq(n, i requires 0 <= i => seq(n, j requires 0 <= j => NoiseEntry(sigma, dt, i, j))))
  }

  /**
   * The measured state: the current position of each axis, followed by its
   * finite-difference velocity, which the estimators take as
   * (previous - current) / dt.
   */
  function Measurement(current: seq<real>, previous: seq<real>, dt: real): (z: Matrix)
    requires |previous| == |current| && dt != 0.0
    ensures z.HasShape(2 * |current|, 1)
    ensures forall k | 0 <= k < |current| :: z.grid[2 * k][0] == current[k]
  {
    var z := Matrix(2 * |current|, 1,
                    seq(2 * |current|, i requires 0 <= i < 2 * |current| =>
                      if i % 2 == 0 then [current[i / 2]] else [(previous[i / 2] - current[i / 2]) / dt]));
    assert forall k | 0 <= k < |current| :: (2 * k) / 2 == k && (2 * k) % 2 == 0;
    z
  }

  /**
   * Each axis of the measurement holds the current position and a velocity
   * that covers the way from the current position back to the previous one
   * in dt.
   */
  lemma MeasurementEntries(current: seq<real>, previous: seq<real>, dt: real, k: nat)
    requires |previous| == |current| && dt != 0.0 && k < |current|
    ensures Measurement(current, previous, dt).grid[2 * k][0] == current[k]
    ensures Measurement(current, previous, dt).grid[2 * k + 1][0] * dt == previous[k] - current[k]
  {
    assert (2 * k) / 2 == k && (2 * k) % 2 == 0;
    assert (2 * k + 1) / 2 == k && (2 * k + 1) % 2 == 1;
  }

  /**
   * The measured state with the finite-difference velocity taken forward,
   * (current - previous) / dt, the direction the transition's position +=
   * dt * velocity assumes.
   */
  function ForwardMeasurement(current: seq<real>, previous: seq<real>, dt: real): (z: Matrix)
    requires |previous| == |current| && dt != 0.0
    ensures z.HasShape(2 * |current|, 1)
    ensures forall k | 0 <= k < |current| :: z.grid[2 * k][0] == current[k]
  {
    var z := Matrix(2 * |current|, 1,
                    seq(2 * |current|, i requires 0 <= i < 2 * |current| =>
                      if i % 2 == 0 then [current[i / 2]] else [(current[i / 2] - previous[i / 2]) / dt]));
    assert forall k | 0 <= k < |current| :: (2 * k) / 2 == k && (2 * k + 1) / 2 == k && (2 * k + 1) % 2 == 1;
    z
  }

  /**
   * The forward measurement has the same positions as the one the
   * estimators build and the opposite velocities: each covers the way from
   * the previous position to the current one in dt.
   */
  lemma ForwardMeasurementEntries(current: seq<real>, previous: seq<real>, dt: real, k: nat)
    requires |previous| == |current| && dt != 0.0 && k < |current|
    ensures ForwardMeasurement(current, previous, dt).grid[2 * k][0] == Measurement(current, previous, dt).grid[2 * k][0]
    ensures ForwardMeasurement(current, previous, dt).grid[2 * k + 1][0] == -Measurement(current, previous, dt).grid[2 * k + 1][0]
    ensures ForwardMeasurement(current, previous, dt).grid[2 * k + 1][0] * dt == current[k] - previous[k]
  {
    assert (2 * k) / 2 == k && (2 * k) % 2 == 0;
    assert (2 * k + 1) / 2 == k && (2 * k + 1) % 2 == 1;
    MeasurementEntries(current, previous, dt, k);
    var backward := Measurement(current, previous, dt).grid[2 * k + 1][0];
    assert -backward * dt == -(backward * dt);
  }

  /** The state an estimator starts from: the given positions at rest. */
  function AtRest(position: seq<real>): (x: Matrix)
    ensures x.HasShape(2 * |position|, 1)
    ensures forall k | 0 <= k < |position| :: x.grid[2 * k][0] == position[k] && x.grid[2 * k + 1][0] == 0.0
  {
    var x := Matrix(2 * |position|, 1,
                    seq(2 * |position|, i requires 0 <= i < 2 * |position| =>
                      if i % 2 == 0 then [position[i / 2]] else [0.0]));
    assert forall k | 0 <= k < |position| :: (2 * k) / 2 == k && (2 * k + 1) / 2 == k && (2 * k + 1) % 2 == 1;
    x
  }

  // ---------------------------------------------------------------------
  // One predict/update cycle

  /** xk = A * xk1, with its covariance Pk = A * Pk1 * A^T + Qt. */
  function PredictedCovariance(a: Matrix, p: Matrix, q: Matrix): (pk: Matrix)
    requires Square(a) && p.HasShape(a.rows, a.rows) && q.HasShape(a.rows, a.rows)
    ensures pk.HasShape(a.rows, a.rows)
  {
    Add(Mul(Mul(a, p), Transpose(a)), q)
  }

  /** Kt = Pk * (Pk + R)^-1. */
  function Gain(pk: Matrix, r: Matrix): (k: Matrix)
    requires Square(pk) && r.HasShape(pk.rows, pk.rows) && Invertible(Add(pk, r))
    ensures k.HasShape(pk.rows, pk.rows)
  {
    Mul(pk, Inverse(Add(pk, r)))
  }

  datatype Estimate = Estimate(x: Matrix, p: Matrix)

  /** The shapes one cycle needs, and the invertibility of Pk + R that Surge's inverse assumes. */
  ghost predicate CanStep(a: Matrix, q: Matrix, r: Matrix, z: Matrix, x: Matrix, p: Matrix) {
    && Square(a)
    && q.HasShape(a.rows, a.rows) && r.HasShape(a.rows, a.rows) && p.HasShape(a.rows, a.rows)
    && z.HasShape(a.rows, 1) && x.HasShape(a.rows, 1)
    && Invertible(Add(PredictedCovariance(a, p, q), r))
  }

  /**
   * One cycle of the filter from the estimate (x, p) and the measurement z:
   * xt = xk + Kt * (zt - xk) and Pt = (I - Kt) * Pk.
   */
  function Step(a: Matrix, q: Matrix, r: Matrix, z: Matrix, x: Matrix, p: Matrix): (e: Estimate)
    requires CanStep(a, q, r, z, x, p)
    ensures e.x.HasShape(a.rows, 1) && e.p.HasShape(a.rows, a.rows)
  {
    var xk := Mul(a, x);
    var pk := PredictedCovariance(a, p, q);
    var kt := Gain(pk, r);
    Estimate(Add(xk, Mul(kt, Sub(z, xk))), Mul(Sub(Identity(a.rows), kt), pk))
  }

  // ---------------------------------------------------------------------
  // What one cycle does

  /** A sum whose only non-zero terms are at p and p + 1. */
  lemma {:induction false} SumOfPair(s: seq<real>, p: nat)
    requires p + 1 < |s|
    requires forall k | 0 <= k < |s| && k != p && k != p + 1 :: s[k] == 0.0
    ensures SeqSum(s) == s[p] + s[p + 1]
    decreases |s|
  {
    if p + 1 == |s| - 1 {
      SumOfUnit(s[..|s| - 1], p);
    } else {
      SumOfPair(s[..|s| - 1], p);
    }
  }

  /** The prediction moves each position by dt times its velocity. */
  lemma PositionPrediction(n: nat, dt: real, x: Matrix, k: nat)
    requires x.HasShape(2 * n, 1) && k < n
    ensures Mul(Transition(2 * n, dt), x).grid[2 * k][0] == x.grid[2 * k][0] + dt * x.grid[2 * k + 1][0]
  {
    var a := Transition(2 * n, dt);
    assert (2 * k) % 2 == 0;
    var s := Products(a, x, 2 * k, 0);
    forall m | 0 <= m < 2 * n && m != 2 * k && m != 2 * k + 1
      ensures s[m] == 0.0
    {
      assert a.grid[2 * k][m] == 0.0;
    }
    SumOfPair(s, 2 * k);
  }

  /** The prediction keeps every velocity. */
  lemma VelocityPrediction(n: nat, dt: real, x: Matrix, k: nat)
    requires x.HasShape(2 * n, 1) && k < n
    ensures Mul(Transition(2 * n, dt), x).grid[2 * k + 1][0] == x.grid[2 * k + 1][0]
  {
    var a := Transition(2 * n, dt);
    assert (2 * k + 1) % 2 == 1;
    var t := Products(a, x, 2 * k + 1, 0);
    forall m | 0 <= m < 2 * n && m != 2 * k + 1
      ensures t[m] == 0.0
    {
      assert a.grid[2 * k + 1][m] == 0.0;
    }
    SumOfUnit(t, 2 * k + 1);
  }

  /** From rest, the prediction leaves the state where it is. */
  lemma PredictionFromRest(dt: real, position: seq<real>)
    ensures Mul(Transition(2 * |position|, dt), AtRest(position)) == AtRest(position)
  {
    var x := AtRest(position);
    var xk := Mul(Transition(2 * |position|, dt), x);
    forall i, j | 0 <= i < 2 * |position| && 0 <= j < 1
      ensures xk.grid[i][j] == x.grid[i][j]
    {
      PositionPrediction(|position|, dt, x, i / 2);
      VelocityPrediction(|position|, dt, x, i / 2);
      assert i == 2 * (i / 2) || i == 2 * (i / 2) + 1;
    }
    Extensionality(xk, x);
  }

  /** From a zero covariance, the predicted covariance is the process noise alone. */
  lemma PredictedCovarianceFromZero(a: Matrix, q: Matrix)
    requires Square(a) && q.HasShape(a.rows, a.rows)
    ensures PredictedCovariance(a, Zero(a.rows, a.rows), q) == q
  {
    var n := a.rows;
    MulZeroRight(a, n);
    MulZeroLeft(n, Transpose(a));
    AddZeroLeft(q);
  }

  lemma SymmetricSum(a: Matrix, b: Matrix)
    requires Symmetric(a) && Symmetric(b) && b.rows == a.rows
    ensures Symmetric(Add(a, b))
  {
  }

  lemma SymmetricDifference(a: Matrix, b: Matrix)
    requires Symmetric(a) && Symmetric(b) && b.rows == a.rows
    ensures Symmetric(Sub(a, b))
  {
  }

  /** The covariance and the sensor noise initKalman sets are symmetric. */
  lemma InitialMatricesSymmetric(n: nat, r: real)
    ensures Symmetric(Zero(n, n)) && Symmetric(Scale(r, Identity(n)))
  {
  }

  /** A P A^T + Q is symmetric when P and Q are. */
  lemma PredictedCovarianceSymmetric(a: Matrix, p: Matrix, q: Matrix)
    requires Square(a) && Symmetric(p) && Symmetric(q) && p.rows == a.rows && q.rows == a.rows
    ensures Symmetric(PredictedCovariance(a, p, q))
  {
    var at := Transpose(a);
    var apat := Mul(Mul(a, p), at);
    calc {
      Transpose(apat);
      { TransposeOfProduct(Mul(a, p), at); }
      Mul(Transpose(at), Transpose(Mul(a, p)));
      { TransposeInvolutive(a); TransposeOfProduct(a, p); }
      Mul(a, Mul(Transpose(p), at));
      { SymmetricIsOwnTranspose(p); }
      Mul(a, Mul(p, at));
      { MulAssociative(a, p, at); }
      apat;
    }
    SymmetricIsOwnTranspose(apat);
    SymmetricSum(apat, q);
  }

  lemma TransposeIdentity(n: nat)
    ensures Transpose(Identity(n)) == Identity(n)
  {
    Extensionality(Transpose(Identity(n)), Identity(n));
  }

  /** The inverse of a symmetric matrix is symmetric. */
  lemma InverseOfSymmetric(s: Matrix)
    requires Symmetric(s) && Invertible(s)
    ensures Symmetric(Inverse(s))
  {
    var b := Inverse(s);
    var bt := Transpose(b);
    var n := s.rows;
    SymmetricIsOwnTranspose(s);
    calc {
      Mul(s, bt);
      Mul(Transpose(s), bt);
      { TransposeOfProduct(b, s); }
      Transpose(Mul(b, s));
      { TransposeIdentity(n); }
      Identity(n);
    }
    calc {
      Mul(bt, s);
      Mul(bt, Transpose(s));
      { TransposeOfProduct(s, b); }
      Transpose(Mul(s, b));
      { TransposeIdentity(n); }
      Identity(n);
    }
    assert IsInverse(s, bt);
    InverseUnique(s);
    SymmetricIsOwnTranspose(b);
  }

  lemma {:induction false} SumPointwiseDifference(s: seq<real>, t: seq<real>, u: seq<real>)
    requires |t| == |s| && |u| == |s|
    requires forall k | 0 <= k < |s| :: u[k] == s[k] - t[k]
    ensures SeqSum(u) == SeqSum(s) - SeqSum(t)
    decreases |s|
  {
    if |s| > 0 {
      SumPointwiseDifference(s[..|s| - 1], t[..|t| - 1], u[..|u| - 1]);
    }
  }

  /** (A - B) * C == A * C - B * C. */
  lemma MulSubDistributes(a: Matrix, b: Matrix, c: Matrix)
    requires a.Valid() && b.HasShape(a.rows, a.columns) && c.Valid() && c.rows == a.columns
    ensures Mul(Sub(a, b), c) == Sub(Mul(a, c), Mul(b, c))
  {
    var left, right := Mul(Sub(a, b), c), Sub(Mul(a, c), Mul(b, c));
    forall i, j | 0 <= i < a.rows && 0 <= j < c.columns
      ensures left.grid[i][j] == right.grid[i][j]
    {
      SumPointwiseDifference(Products(a, c, i, j), Products(b, c, i, j), Products(Sub(a, b), c, i, j));
    }
    Extensionality(left, right);
  }

  /** Pt = (I - Kt) * Pk is symmetric when Pk and R are. */
  lemma CorrectedCovarianceSymmetric(pk: Matrix, r: Matrix)
    requires Symmetric(pk) && Symmetric(r) && r.rows == pk.rows && Invertible(Add(pk, r))
    ensures Symmetric(Mul(Sub(Identity(pk.rows), Gain(pk, r)), pk))
  {
    var n := pk.rows;
    var s := Add(pk, r);
    var si := Inverse(s);
    var kt := Gain(pk, r);
    var kp := Mul(kt, pk);
    SymmetricSum(pk, r);
    InverseOfSymmetric(s);
    calc {
      Transpose(kp);
      { TransposeOfProduct(kt, pk); }
      Mul(Transpose(pk), Transpose(kt));
      { TransposeOfProduct(pk, si); }
      Mul(Transpose(pk), Mul(Transpose(si), Transpose(pk)));
      { SymmetricIsOwnTranspose(pk); SymmetricIsOwnTranspose(si); }
      Mul(pk, Mul(si, pk));
      { MulAssociative(pk, si, pk); }
      kp;
    }
    SymmetricIsOwnTranspose(kp);
    MulSubDistributes(Identity(n), kt, pk);
    MulIdentityLeft(pk);
    SymmetricDifference(pk, kp);
  }

  /** One cycle keeps the covariance symmetric. */
  lemma StepKeepsCovarianceSymmetric(a: Matrix, q: Matrix, r: Matrix, z: Matrix, x: Matrix, p: Matrix)
    requires CanStep(a, q, r, z, x, p)
    requires Symmetric(p) && Symmetric(q) && Symmetric(r)
    ensures Symmetric(Step(a, q, r, z, x, p).p)
  {
    var pk := PredictedCovariance(a, p, q);
    PredictedCovarianceSymmetric(a, p, q);
    CorrectedCovarianceSymmetric(pk, r);
  }

  /** The gain solves Kt * (Pk + R) == Pk. */
  lemma GainSolvesInnovation(pk: Matrix, r: Matrix)
    requires Square(pk) && r.HasShape(pk.rows, pk.rows) && Invertible(Add(pk, r))
    ensures Mul(Gain(pk, r), Add(pk, r)) == pk
  {
    var s := Add(pk, r);
    MulAssociative(pk, Inverse(s), s);
    MulIdentityRight(pk);
  }

  /** A measurement equal to the prediction leaves the predicted state uncorrected. */
  lemma StepWithoutInnovation(a: Matrix, q: Matrix, r: Matrix, x: Matrix, p: Matrix)
    requires Square(a) && x.HasShape(a.rows, 1)
    requires CanStep(a, q, r, Mul(a, x), x, p)
    ensures Step(a, q, r, Mul(a, x), x, p).x == Mul(a, x)
  {
    var xk := Mul(a, x);
    var kt := Gain(PredictedCovariance(a, p, q), r);
    SubSelf(xk);
    MulZeroRight(kt, 1);
    AddZeroRight(xk);
  }

  /** With no measurement noise the filter adopts the measurement as its state. */
  lemma StepWithExactSensor(a: Matrix, q: Matrix, z: Matrix, x: Matrix, p: Matrix)
    requires CanStep(a, q, Zero(a.rows, a.rows), z, x, p)
    ensures Step(a, q, Zero(a.rows, a.rows), z, x, p).x == z
  {
    var n := a.rows;
    var xk := Mul(a, x);
    var pk := PredictedCovariance(a, p, q);
    AddZeroRight(pk);
    assert Gain(pk, Zero(n, n)) == Identity(n);
    MulIdentityLeft(Sub(z, xk));
    AddSubCancel(xk, z);
  }
}
