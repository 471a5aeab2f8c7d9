/**
 * The three stages of `kalmanFilter()`, computed with the matrix container
 * and shared by both estimators: the prediction, the gain and the
 * correction. Each stage allocates its results afresh and changes none of
 * its operands.
 */
module KalmanCycle {
  import opened Matrices
  import opened KalmanEquations
  import opened MatrixObject

  /** xk = A * xk1 and Pk = (A * Pk1) * A^T + Qt. */
  method Predict(a: HCMatrixObject, x: HCMatrixObject, p: HCMatrixObject, q: HCMatrixObject)
    returns (xk: HCMatrixObject, pk: HCMatrixObject)
    requires a.HasShape(a.rows, a.rows) && x.HasShape(a.rows, 1)
    requires p.HasShape(a.rows, a.rows) && q.HasShape(a.rows, a.rows)
    ensures fresh(xk) && fresh(pk)
    ensures xk.HasShape(a.rows, 1) && pk.HasShape(a.rows, a.rows)
    ensures xk.matrix == Mul(a.matrix, x.matrix)
    ensures pk.matrix == PredictedCovariance(a.matrix, p.matrix, q.matrix)
  {
    xk := HCMatrixObject.Times(a, x);
    var ap := HCMatrixObject.Times(a, p);
    var at := a.Transpose();
    var apat := HCMatrixObject.Times(ap, at);
    pk := HCMatrixObject.Plus(apat, q);
  }

  /** tmp = Pk + R and Kt = Pk * tmp^-1. */
  method ComputeGain(pk: HCMatrixObject, r: HCMatrixObject) returns (kt: HCMatrixObject)
    requires pk.HasShape(pk.rows, pk.rows) && r.HasShape(pk.rows, pk.rows)
    requires Invertible(Add(pk.matrix, r.matrix))
    ensures fresh(kt) && kt.HasShape(pk.rows, pk.rows)
    ensures kt.matrix == Gain(pk.matrix, r.matrix)
  {
    var tmp := HCMatrixObject.Plus(pk, r);
    var tmpInverse := tmp.InverseMatrix();
    kt := HCMatrixObject.Times(pk, tmpInverse);
  }

  /** xt = xk + Kt * (zt - xk) and Pt = (I - Kt) * Pk. */
  method Correct(xk: HCMatrixObject, kt: HCMatrixObject, z: HCMatrixObject, pk: HCMatrixObject)
    returns (xt: HCMatrixObject, pt: HCMatrixObject)
    requires pk.HasShape(pk.rows, pk.rows) && kt.HasShape(pk.rows, pk.rows)
    requires xk.HasShape(pk.rows, 1) && z.HasShape(pk.rows, 1)
    ensures fresh(xt) && fresh(pt)
    ensures xt.HasShape(pk.rows, 1) && pt.HasShape(pk.rows, pk.rows)
    ensures xt.matrix == Add(xk.matrix, Mul(kt.matrix, Sub(z.matrix, xk.matrix)))
    ensures pt.matrix == Mul(Sub(Identity(pk.rows), kt.matrix), pk.matrix)
  {
    var innovation := HCMatrixObject.Minus(z, xk);
    var correction := HCMatrixObject.Times(kt, innovation);
    xt := HCMatrixObject.Plus(xk, correction);
    var identity := HCMatrixObject.GetIdentityMatrix(pk.rows);
    var identityMinusGain := HCMatrixObject.Minus(identity, kt);
    pt := HCMatrixObject.Times(identityMinusGain, pk);
  }
}
