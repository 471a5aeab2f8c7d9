/**
 * The first cycle of the framework-target estimator worked out in closed
 * form, for two samples one second apart: the gain is the same 2x2 block
 * on each axis, and the first filtered latitude is the previous latitude
 * moved by a fixed share of the measured innovation. With the velocity zt
 * holds, (previous - current) / dt, that share points away from the new
 * sample; with the forward velocity it lands between the two samples.
 */
module FirstStep {
  import opened Matrices
  import opened KalmanEquations
  import opened Locations
  import opened Kalman4

  /** The 4x4 matrix with the 2x2 block [[p, q], [r, s]] on both axes and zeros between them. */
  function Block(p: real, q: real, r: real, s: real): (m: Matrix)
    ensures m.HasShape(4, 4)
    ensures m.grid == [[p, q, 0.0, 0.0], [r, s, 0.0, 0.0], [0.0, 0.0, p, q], [0.0, 0.0, r, s]]
  {
    FromRows([[p, q, 0.0, 0.0], [r, s, 0.0, 0.0], [0.0, 0.0, p, q], [0.0, 0.0, r, s]])
  }

  /** The entries outside the two diagonal 2x2 blocks of a 4x4 matrix are zero. */
  predicate BlockDiagonal(m: Matrix)
    requires m.HasShape(4, 4)
  {
    && m.grid[0][2] == 0.0 && m.grid[0][3] == 0.0 && m.grid[1][2] == 0.0 && m.grid[1][3] == 0.0
    && m.grid[2][0] == 0.0 && m.grid[2][1] == 0.0 && m.grid[3][0] == 0.0 && m.grid[3][1] == 0.0
  }

  /**
   * Entry (i, j) of a product of two block-diagonal matrices has only the
   * two terms from the block that row i and column j share.
   */
  lemma BlockProductEntry(a: Matrix, b: Matrix, i: nat, j: nat)
    requires a.HasShape(4, 4) && b.HasShape(4, 4) && BlockDiagonal(a) && i < 4 && j < 4
    ensures var s := if i < 2 then 0 else 2;
            Mul(a, b).grid[i][j] == a.grid[i][s] * b.grid[s][j] + a.grid[i][s + 1] * b.grid[s + 1][j]
  {
    var start := if i < 2 then 0 else 2;
    var terms := Products(a, b, i, j);
    forall k | 0 <= k < 4 && k != start && k != start + 1
      ensures terms[k] == 0.0
    {
      assert a.grid[i][k] == 0.0;
    }
    SumOfPair(terms, start);
  }

  /** Block matrices multiply block by block. */
  lemma BlockMul(p: real, q: real, r: real, s: real, e: real, f: real, g: real, h: real)
    ensures Mul(Block(p, q, r, s), Block(e, f, g, h)) ==
            Block(p * e + q * g, p * f + q * h, r * e + s * g, r * f + s * h)
  {
    var a := Block(p, q, r, s);
    var b := Block(e, f, g, h);
    var m := Mul(a, b);
    var c := Block(p * e + q * g, p * f + q * h, r * e + s * g, r * f + s * h);
    assert BlockDiagonal(a);
    BlockProductEntry(a, b, 0, 0); BlockProductEntry(a, b, 0, 1); BlockProductEntry(a, b, 0, 2); BlockProductEntry(a, b, 0, 3);
    BlockProductEntry(a, b, 1, 0); BlockProductEntry(a, b, 1, 1); BlockProductEntry(a, b, 1, 2); BlockProductEntry(a, b, 1, 3);
    BlockProductEntry(a, b, 2, 0); BlockProductEntry(a, b, 2, 1); BlockProductEntry(a, b, 2, 2); BlockProductEntry(a, b, 2, 3);
    BlockProductEntry(a, b, 3, 0); BlockProductEntry(a, b, 3, 1); BlockProductEntry(a, b, 3, 2); BlockProductEntry(a, b, 3, 3);
    Extensionality(m, c);
  }

  /** Block matrices subtract block by block. */
  lemma BlockSub(p: real, q: real, r: real, s: real, e: real, f: real, g: real, h: real)
    ensures Sub(Block(p, q, r, s), Block(e, f, g, h)) == Block(p - e, q - f, r - g, s - h)
  {
    Extensionality(Sub(Block(p, q, r, s), Block(e, f, g, h)), Block(p - e, q - f, r - g, s - h));
  }

  /** The process noise after one second: sigma times [[1/4, 1/2], [1/2, 1]] on each axis. */
  lemma NoiseAfterOneSecond()
    ensures ProcessNoise(4, Sigma, 1.0) == Block(1.0 / 64.0, 1.0 / 32.0, 1.0 / 32.0, 1.0 / 16.0)
  {
    var q := ProcessNoise(4, Sigma, 1.0);
    var b := Block(1.0 / 64.0, 1.0 / 32.0, 1.0 / 32.0, 1.0 / 16.0);
    assert Pow(1.0, 4) == 1.0 && Pow(1.0, 3) == 1.0 && Pow(1.0, 2) == 1.0;
    forall i, j | 0 <= i < 4 && 0 <= j < 4
      ensures q.grid[i][j] == b.grid[i][j]
    {
      assert q.grid[i][j] == NoiseEntry(Sigma, 1.0, i, j);
    }
    Extensionality(q, b);
  }

  /** The sensor noise R = rValue * I. */
  lemma SensorNoiseBlock(rValue: real)
    ensures Scale(rValue, Identity(4)) == Block(rValue, 0.0, 0.0, rValue)
  {
    Extensionality(Scale(rValue, Identity(4)), Block(rValue, 0.0, 0.0, rValue));
  }

  lemma IdentityBlock()
    ensures Identity(4) == Block(1.0, 0.0, 0.0, 1.0)
  {
    Extensionality(Identity(4), Block(1.0, 0.0, 0.0, 1.0));
  }

  /** The entries of the inverse of Pk + R, multiplied out with the entries of Pk + R on either side. */
  lemma InverseEntries(rValue: real, a: real, b: real, c: real, p: real, q: real, t: real)
    requires rValue > 0.0 && a == rValue + 1.0 / 64.0 && b == 1.0 / 32.0 && c == rValue + 1.0 / 16.0
    requires var d := rValue * (64.0 * rValue + 5.0);
             p == (64.0 * rValue + 4.0) / d && q == -2.0 / d && t == (64.0 * rValue + 1.0) / d
    ensures a * p + b * q == 1.0 && a * q + b * t == 0.0 && b * p + c * q == 0.0 && b * q + c * t == 1.0
    ensures p * a + q * b == 1.0 && p * b + q * c == 0.0 && q * a + t * b == 0.0 && q * b + t * c == 1.0
  {
  }

  /** Pk + R after one second from zero covariance. */
  lemma InnovationCovarianceBlock(rValue: real)
    ensures Add(ProcessNoise(4, Sigma, 1.0), Scale(rValue, Identity(4))) ==
            Block(rValue + 1.0 / 64.0, 1.0 / 32.0, 1.0 / 32.0, rValue + 1.0 / 16.0)
  {
    NoiseAfterOneSecond();
    SensorNoiseBlock(rValue);
    Extensionality(Add(ProcessNoise(4, Sigma, 1.0), Scale(rValue, Identity(4))),
                   Block(rValue + 1.0 / 64.0, 1.0 / 32.0, 1.0 / 32.0, rValue + 1.0 / 16.0));
  }

  /**
   * For a positive sensor noise scale, Pk + R is invertible after one
   * second, and its inverse is 1 / (rValue * (64 * rValue + 5)) times
   * [[64 * rValue + 4, -2], [-2, 64 * rValue + 1]] on each axis.
   */
  lemma InnovationCovarianceInverse(rValue: real)
    requires rValue > 0.0
    ensures Invertible(Add(ProcessNoise(4, Sigma, 1.0), Scale(rValue, Identity(4))))
    ensures Inverse(Add(ProcessNoise(4, Sigma, 1.0), Scale(rValue, Identity(4)))) ==
            Block((64.0 * rValue + 4.0) / (rValue * (64.0 * rValue + 5.0)), -2.0 / (rValue * (64.0 * rValue + 5.0)),
                  -2.0 / (rValue * (64.0 * rValue + 5.0)), (64.0 * rValue + 1.0) / (rValue * (64.0 * rValue + 5.0)))
  {
    var a, b, c := rValue + 1.0 / 64.0, 1.0 / 32.0, rValue + 1.0 / 16.0;
    var w := Add(ProcessNoise(4, Sigma, 1.0), Scale(rValue, Identity(4)));
    InnovationCovarianceBlock(rValue);
    var d := rValue * (64.0 * rValue + 5.0);
    var p, q, t := (64.0 * rValue + 4.0) / d, -2.0 / d, (64.0 * rValue + 1.0) / d;
    var v := Block(p, q, q, t);
    InverseEntries(rValue, a, b, c, p, q, t);
    BlockMul(a, b, b, c, p, q, q, t);
    BlockMul(p, q, q, t, a, b, b, c);
    IdentityBlock();
    assert IsInverse(w, v);
    InverseUnique(w);
    assert IsInverse(w, Inverse(w));
    assert Inverse(w) == v;
  }

  /** The entries of the gain, Qt multiplied out with the inverse of Pk + R. */
  lemma GainEntries(rValue: real, p: real, q: real, t: real)
    requires rValue > 0.0
    requires var d := rValue * (64.0 * rValue + 5.0);
             p == (64.0 * rValue + 4.0) / d && q == -2.0 / d && t == (64.0 * rValue + 1.0) / d
    ensures (1.0 / 64.0) * p + (1.0 / 32.0) * q == 1.0 / (64.0 * rValue + 5.0)
    ensures (1.0 / 64.0) * q + (1.0 / 32.0) * t == 2.0 / (64.0 * rValue + 5.0)
    ensures (1.0 / 32.0) * p + (1.0 / 16.0) * q == 2.0 / (64.0 * rValue + 5.0)
    ensures (1.0 / 32.0) * q + (1.0 / 16.0) * t == 4.0 / (64.0 * rValue + 5.0)
  {
  }

  /** The gain of the first cycle: 1 / (64 * rValue + 5) times [[1, 2], [2, 4]] on each axis. */
  lemma FirstGain(rValue: real)
    requires rValue > 0.0
    ensures Invertible(Add(ProcessNoise(4, Sigma, 1.0), Scale(rValue, Identity(4))))
    ensures Gain(ProcessNoise(4, Sigma, 1.0), Scale(rValue, Identity(4))) ==
            Block(1.0 / (64.0 * rValue + 5.0), 2.0 / (64.0 * rValue + 5.0),
                  2.0 / (64.0 * rValue + 5.0), 4.0 / (64.0 * rValue + 5.0))
  {
    InnovationCovarianceInverse(rValue);
    NoiseAfterOneSecond();
    var d := rValue * (64.0 * rValue + 5.0);
    var p, q, t := (64.0 * rValue + 4.0) / d, -2.0 / d, (64.0 * rValue + 1.0) / d;
    GainEntries(rValue, p, q, t);
    BlockMul(1.0 / 64.0, 1.0 / 32.0, 1.0 / 32.0, 1.0 / 16.0, p, q, q, t);
  }

  /** The entries of (I - Kt) * Pk in the first cycle, multiplied out. */
  lemma FirstCovarianceEntries(rValue: real)
    requires rValue > 0.0
    ensures var e := 64.0 * rValue + 5.0;
            && (1.0 - 1.0 / e) * (1.0 / 64.0) + (-2.0 / e) * (1.0 / 32.0) == rValue / e
            && (1.0 - 1.0 / e) * (1.0 / 32.0) + (-2.0 / e) * (1.0 / 16.0) == 2.0 * rValue / e
            && (-2.0 / e) * (1.0 / 64.0) + (1.0 - 4.0 / e) * (1.0 / 32.0) == 2.0 * rValue / e
            && (-2.0 / e) * (1.0 / 32.0) + (1.0 - 4.0 / e) * (1.0 / 16.0) == 4.0 * rValue / e
  {
  }

  /** I - Kt in the first cycle. */
  lemma FirstIdentityMinusGain(rValue: real)
    requires rValue > 0.0
    ensures Invertible(Add(ProcessNoise(4, Sigma, 1.0), Scale(rValue, Identity(4))))
    ensures Sub(Identity(4), Gain(ProcessNoise(4, Sigma, 1.0), Scale(rValue, Identity(4)))) ==
            Block(1.0 - 1.0 / (64.0 * rValue + 5.0), -2.0 / (64.0 * rValue + 5.0),
                  -2.0 / (64.0 * rValue + 5.0), 1.0 - 4.0 / (64.0 * rValue + 5.0))
  {
    FirstGain(rValue);
    IdentityBlock();
    var e := 64.0 * rValue + 5.0;
    BlockSub(1.0, 0.0, 0.0, 1.0, 1.0 / e, 2.0 / e, 2.0 / e, 4.0 / e);
    assert 0.0 - 2.0 / e == -2.0 / e;
  }

  /** (I - Kt) * Pk in the first cycle, with Pk = Qt and Kt the first gain. */
  lemma FirstCorrectedCovariance(rValue: real)
    requires rValue > 0.0
    ensures Invertible(Add(ProcessNoise(4, Sigma, 1.0), Scale(rValue, Identity(4))))
    ensures Mul(Sub(Identity(4), Gain(ProcessNoise(4, Sigma, 1.0), Scale(rValue, Identity(4)))), ProcessNoise(4, Sigma, 1.0)) ==
            Block(rValue / (64.0 * rValue + 5.0), 2.0 * rValue / (64.0 * rValue + 5.0),
                  2.0 * rValue / (64.0 * rValue + 5.0), 4.0 * rValue / (64.0 * rValue + 5.0))
  {
    FirstIdentityMinusGain(rValue);
    NoiseAfterOneSecond();
    var e := 64.0 * rValue + 5.0;
    BlockMul(1.0 - 1.0 / e, -2.0 / e, -2.0 / e, 1.0 - 4.0 / e, 1.0 / 64.0, 1.0 / 32.0, 1.0 / 32.0, 1.0 / 16.0);
    FirstCovarianceEntries(rValue);
  }

  /**
   * The covariance after the first cycle, from zero covariance one second
   * later: rValue / (64 * rValue + 5) times [[1, 2], [2, 4]] on each axis,
   * for any previous state and any measurement. Its diagonal is positive:
   * the uncertainty grew from zero and the update did not bring it back to zero.
   */
  lemma FirstCovariance(rValue: real, x: Matrix, z: Matrix)
    requires rValue > 0.0
    requires x.HasShape(4, 1) && z.HasShape(4, 1)
    ensures Invertible(Add(ProcessNoise(4, Sigma, 1.0), Scale(rValue, Identity(4))))
    ensures CanStep(Transition(4, 1.0), ProcessNoise(4, Sigma, 1.0), Scale(rValue, Identity(4)), z, x, Zero(4, 4))
    ensures Step(Transition(4, 1.0), ProcessNoise(4, Sigma, 1.0), Scale(rValue, Identity(4)), z, x, Zero(4, 4)).p ==
            Block(rValue / (64.0 * rValue + 5.0), 2.0 * rValue / (64.0 * rValue + 5.0),
                  2.0 * rValue / (64.0 * rValue + 5.0), 4.0 * rValue / (64.0 * rValue + 5.0))
    ensures var p := Step(Transition(4, 1.0), ProcessNoise(4, Sigma, 1.0), Scale(rValue, Identity(4)), z, x, Zero(4, 4)).p;
            p.grid[0][0] > 0.0 && p.grid[1][1] > 0.0 && p.grid[2][2] > 0.0 && p.grid[3][3] > 0.0
  {
    PredictedCovarianceFromZero(Transition(4, 1.0), ProcessNoise(4, Sigma, 1.0));
    FirstCorrectedCovariance(rValue);
    var e := 64.0 * rValue + 5.0;
    assert rValue / e > 0.0 && 4.0 * rValue / e > 0.0;
  }

  /** The quadratic form w^T * m * w of a 4x4 matrix m and a vector w of four entries. */
  function QuadraticForm(m: Matrix, w: seq<real>): real
    requires m.HasShape(4, 4) && |w| == 4
  {
    (m.grid[0][0] * w[0] + m.grid[0][1] * w[1] + m.grid[0][2] * w[2] + m.grid[0][3] * w[3]) * w[0] +
    (m.grid[1][0] * w[0] + m.grid[1][1] * w[1] + m.grid[1][2] * w[2] + m.grid[1][3] * w[3]) * w[1] +
    (m.grid[2][0] * w[0] + m.grid[2][1] * w[1] + m.grid[2][2] * w[2] + m.grid[2][3] * w[3]) * w[2] +
    (m.grid[3][0] * w[0] + m.grid[3][1] * w[1] + m.grid[3][2] * w[2] + m.grid[3][3] * w[3]) * w[3]
  }

  /** The quadratic form of a block matrix is the sum of the forms of its two blocks. */
  lemma BlockQuadraticForm(p: real, q: real, r: real, s: real, w: seq<real>)
    requires |w| == 4
    ensures QuadraticForm(Block(p, q, r, s), w) ==
            ((p * w[0] + q * w[1]) * w[0] + (r * w[0] + s * w[1]) * w[1]) +
            ((p * w[2] + q * w[3]) * w[2] + (r * w[2] + s * w[3]) * w[3])
  {
  }

  /** The block c * [[1, 2], [2, 4]] has the form c * (u + 2v)^2, never negative for c >= 0. */
  lemma RankOneBlockForm(c: real, d: real, f: real, u: real, v: real)
    requires c >= 0.0 && d == 2.0 * c && f == 4.0 * c
    ensures (c * u + d * v) * u + (d * u + f * v) * v >= 0.0
  {
    var w := u + 2.0 * v;
    assert (c * u + d * v) * u + (d * u + f * v) * v == c * (w * w);
    if w >= 0.0 {
      MulNonNegative(w, w);
    } else {
      MulNonNegative(-w, -w);
    }
    MulNonNegative(c, w * w);
  }

  /**
   * The covariance after the first cycle is positive semidefinite: its
   * quadratic form is rValue / (64 * rValue + 5) times
   * (w0 + 2 w1)^2 + (w2 + 2 w3)^2, for every state, measurement and vector w.
   */
  lemma FirstCovarianceSemidefinite(rValue: real, x: Matrix, z: Matrix, w: seq<real>)
    requires rValue > 0.0
    requires x.HasShape(4, 1) && z.HasShape(4, 1) && |w| == 4
    ensures CanStep(Transition(4, 1.0), ProcessNoise(4, Sigma, 1.0), Scale(rValue, Identity(4)), z, x, Zero(4, 4))
    ensures QuadraticForm(Step(Transition(4, 1.0), ProcessNoise(4, Sigma, 1.0), Scale(rValue, Identity(4)), z, x, Zero(4, 4)).p, w) >= 0.0
  {
    FirstCovariance(rValue, x, z);
    var e := 64.0 * rValue + 5.0;
    var c := rValue / e;
    assert c > 0.0 && 2.0 * rValue / e == 2.0 * c && 4.0 * rValue / e == 4.0 * c;
    BlockQuadraticForm(c, 2.0 * rValue / e, 2.0 * rValue / e, 4.0 * rValue / e, w);
    RankOneBlockForm(c, 2.0 * rValue / e, 4.0 * rValue / e, w[0], w[1]);
    RankOneBlockForm(c, 2.0 * rValue / e, 4.0 * rValue / e, w[2], w[3]);
  }

  /**
   * The first filtered latitude for any measurement z: the previous
   * latitude plus the gain row [1, 2] / (64 * rValue + 5) applied to the
   * latitude innovation (z0 - previous latitude) and the measured velocity z1.
   */
  lemma FirstLatitude(first: Location, second: Location, rValue: real, z: Matrix)
    requires second.timestamp - first.timestamp == 1.0 && rValue > 0.0
    requires z.HasShape(4, 1)
    ensures Invertible(Add(ProcessNoise(4, Sigma, 1.0), Scale(rValue, Identity(4))))
    ensures CanStep(Transition(4, 1.0), ProcessNoise(4, Sigma, 1.0), Scale(rValue, Identity(4)), z,
                    AtRest(Position(CoordinateOf(first))), Zero(4, 4))
    ensures Step(Transition(4, 1.0), ProcessNoise(4, Sigma, 1.0), Scale(rValue, Identity(4)), z,
                 AtRest(Position(CoordinateOf(first))), Zero(4, 4)).x.grid[0][0] ==
            first.latitude + ((z.grid[0][0] - first.latitude) + 2.0 * z.grid[1][0]) / (64.0 * rValue + 5.0)
  {
    var a := Transition(4, 1.0);
    var q := ProcessNoise(4, Sigma, 1.0);
    var x := AtRest(Position(CoordinateOf(first)));
    FirstGain(rValue);
    PredictedCovarianceFromZero(a, q);
    PredictionFromRest(1.0, Position(CoordinateOf(first)));
    var e := 64.0 * rValue + 5.0;
    var k := Block(1.0 / e, 2.0 / e, 2.0 / e, 4.0 / e);
    var y := Sub(z, x);
    assert y.grid[0][0] == z.grid[0][0] - first.latitude;
    assert y.grid[1][0] == z.grid[1][0];
    SumOfPair(Products(k, y, 0, 0), 0);
    assert (1.0 / e) * y.grid[0][0] + (2.0 / e) * y.grid[1][0] == (y.grid[0][0] + 2.0 * y.grid[1][0]) / e;
  }

  /**
   * As written: from a sample at rest, a second sample one second later
   * moves the first output by -1 / (64 * rValue + 5) of the step. When the
   * latitude grows, the filtered latitude falls below the first one, out of
   * the segment between the two samples.
   */
  lemma FirstOutputLeavesSegment(first: Location, second: Location, rValue: real)
    requires second.timestamp - first.timestamp == 1.0 && rValue > 0.0
    ensures Invertible(Add(ProcessNoise(4, Sigma, 1.0), Scale(rValue, Identity(4))))
    ensures FirstOutput(first, second, rValue).latitude ==
            first.latitude - (second.latitude - first.latitude) / (64.0 * rValue + 5.0)
    ensures first.latitude < second.latitude ==> FirstOutput(first, second, rValue).latitude < first.latitude
  {
    var z := Measurement(Position(CoordinateOf(second)), Position(CoordinateOf(first)), 1.0);
    FirstLatitude(first, second, rValue, z);
    MeasurementEntries(Position(CoordinateOf(second)), Position(CoordinateOf(first)), 1.0, 0);
    assert z.grid[0][0] == second.latitude && z.grid[1][0] == first.latitude - second.latitude;
    var d := second.latitude - first.latitude;
    var e := 64.0 * rValue + 5.0;
    assert (d + 2.0 * -d) / e == -(d / e);
    assert d > 0.0 ==> d / e > 0.0;
  }

  /**
   * The default sensor noise scale and a step of one unit of latitude in one
   * second: the first output is -1/1861, below both samples.
   */
  lemma FirstOutputFromOrigin(metadata: Metadata)
    ensures Invertible(Add(ProcessNoise(4, Sigma, 1.0), Scale(DefaultRValue, Identity(4))))
    ensures FirstOutput(Location(0.0, 0.0, 0.0, 0.0, metadata), Location(1.0, 0.0, 0.0, 1.0, metadata), DefaultRValue).latitude
            == -1.0 / 1861.0
  {
    FirstOutputLeavesSegment(Location(0.0, 0.0, 0.0, 0.0, metadata), Location(1.0, 0.0, 0.0, 1.0, metadata), DefaultRValue);
  }

  /** A move of 3 / e of the way from `p` to `q`, for e > 3, stays strictly between them. */
  lemma ShareBetween(p: real, q: real, e: real)
    requires e > 3.0
    ensures p < q ==> p < p + 3.0 * (q - p) / e < q
    ensures q < p ==> q < p + 3.0 * (q - p) / e < p
  {
    var d := q - p;
    var k := 3.0 / e;
    assert 3.0 * d / e == k * d;
    assert 0.0 < k < 1.0;
    if d > 0.0 {
      assert k * d < 1.0 * d;
    } else if d < 0.0 {
      assert k * d > 1.0 * d;
    }
  }

  /** The latitude entries of the forward measurement one second after `first`. */
  lemma ForwardLatitudeEntries(first: Location, second: Location)
    ensures ForwardMeasurement(Position(CoordinateOf(second)), Position(CoordinateOf(first)), 1.0).grid[0][0] == second.latitude
    ensures ForwardMeasurement(Position(CoordinateOf(second)), Position(CoordinateOf(first)), 1.0).grid[1][0] ==
            second.latitude - first.latitude
  {
  }

  /** The first output with the forward velocity, in closed form. */
  lemma ForwardFirstLatitude(first: Location, second: Location, rValue: real)
    requires second.timestamp - first.timestamp == 1.0 && rValue > 0.0
    ensures Invertible(Add(ProcessNoise(4, Sigma, 1.0), Scale(rValue, Identity(4))))
    ensures ForwardFirstOutput(first, second, rValue).latitude ==
            first.latitude + 3.0 * (second.latitude - first.latitude) / (64.0 * rValue + 5.0)
  {
    var z := ForwardMeasurement(Position(CoordinateOf(second)), Position(CoordinateOf(first)), 1.0);
    FirstLatitude(first, second, rValue, z);
    ForwardLatitudeEntries(first, second);
    PredictedCovarianceFromZero(Transition(4, 1.0), ProcessNoise(4, Sigma, 1.0));
    assert ForwardFirstOutput(first, second, rValue).latitude ==
           Step(Transition(4, 1.0), ProcessNoise(4, Sigma, 1.0), Scale(rValue, Identity(4)), z,
                AtRest(Position(CoordinateOf(first))), Zero(4, 4)).x.grid[0][0];
    var d := second.latitude - first.latitude;
    assert (d + 2.0 * d) / (64.0 * rValue + 5.0) == 3.0 * d / (64.0 * rValue + 5.0);
  }

  /**
   * Corrected: with the forward velocity the first output moves
   * 3 / (64 * rValue + 5) of the step towards the new sample, strictly
   * between the two latitudes whenever they differ.
   */
  lemma ForwardFirstOutputInSegment(first: Location, second: Location, rValue: real)
    requires second.timestamp - first.timestamp == 1.0 && rValue > 0.0
    ensures Invertible(Add(ProcessNoise(4, Sigma, 1.0), Scale(rValue, Identity(4))))
    ensures ForwardFirstOutput(first, second, rValue).latitude ==
            first.latitude + 3.0 * (second.latitude - first.latitude) / (64.0 * rValue + 5.0)
    ensures first.latitude < second.latitude ==>
              first.latitude < ForwardFirstOutput(first, second, rValue).latitude < second.latitude
    ensures second.latitude < first.latitude ==>
              second.latitude < ForwardFirstOutput(first, second, rValue).latitude < first.latitude
  {
    ForwardFirstLatitude(first, second, rValue);
    ShareBetween(first.latitude, second.latitude, 64.0 * rValue + 5.0);
  }
}
