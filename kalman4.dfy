/**
 * The framework-target estimator: a four-entry state
 * [lat, lat velocity, lon, lon velocity]. It keeps only the coordinates of
 * the previous sample and returns bare coordinates. Its own matrix class is
 * not part of this model; it runs here over the same matrix container as
 * the altitude-aware estimator.
 */
module Kalman4 {
  import opened Matrices
  import opened KalmanEquations
  import opened Locations
  import opened MatrixObject
  import opened KalmanCycle

  /** The acceleration noise magnitude sigma. */
  const Sigma: real := 0.0625

  /** The initial value of the sensor noise scale `_rValue`. */
  const DefaultRValue: real := 29.0

  /** The positions the state tracks, one per axis. */
  function Position(coordinate: Coordinate): seq<real> {
    [coordinate.latitude, coordinate.longitude]
  }

  /** The coordinates of a sample, the only part of it the estimator keeps. */
  function CoordinateOf(location: Location): (c: Coordinate)
    ensures c.latitude == location.latitude && c.longitude == location.longitude
  {
    Coordinate(location.latitude, location.longitude)
  }

  /** The literal initKalman gives xk1: [lat, 0, lon, 0]^T. */
  function InitialStateRows(location: Location): (rows: seq<seq<real>>)
    ensures Rectangular(rows) && FromRows(rows) == AtRest(Position(CoordinateOf(location)))
  {
    var rows := [[location.latitude], [0.0], [location.longitude], [0.0]];
    Extensionality(FromRows(rows), AtRest(Position(CoordinateOf(location))));
    rows
  }

  /** The literal processState gives A: the identity with dt at (0, 1) and (2, 3). */
  function TransitionRows(dt: real): (rows: seq<seq<real>>)
    ensures Rectangular(rows) && FromRows(rows) == Transition(4, dt)
  {
    var rows := [[1.0, dt, 0.0, 0.0],
                 [0.0, 1.0, 0.0, 0.0],
                 [0.0, 0.0, 1.0, dt],
                 [0.0, 0.0, 0.0, 1.0]];
    Extensionality(FromRows(rows), Transition(4, dt));
    rows
  }

  /** The literal processState gives zt: each current position followed by (previous - current) / dt. */
  function MeasurementRows(previous: Coordinate, current: Location, dt: real): (rows: seq<seq<real>>)
    requires dt != 0.0
    ensures Rectangular(rows) && FromRows(rows) == Measurement(Position(CoordinateOf(current)), Position(previous), dt)
  {
    var velocityX := (previous.latitude - current.latitude) / dt;
    var velocityY := (previous.longitude - current.longitude) / dt;
    var rows := [[current.latitude], [velocityX], [current.longitude], [velocityY]];
    var z := Measurement(Position(CoordinateOf(current)), Position(previous), dt);
    assert z.grid[0] == rows[0] && z.grid[1] == rows[1];
    assert z.grid[2] == rows[2] && z.grid[3] == rows[3];
    assert z.grid == rows;
    rows
  }

  class HCKalmanAlgorithm {
    var storedRValue: real
    var xk1: HCMatrixObject
    var Pk1: HCMatrixObject
    var A: HCMatrixObject
    var Qt: HCMatrixObject
    var R: HCMatrixObject
    var zt: HCMatrixObject
    var previousMeasureTime: real
    var previousLocation: Coordinate

    /**
     * Six distinct matrices of the state's shapes; the covariance and the
     * sensor noise are symmetric.
     */
    ghost predicate Valid()
      reads this, xk1, Pk1, A, Qt, R, zt
    {
      && xk1.HasShape(4, 1) && zt.HasShape(4, 1)
      && Pk1.HasShape(4, 4) && A.HasShape(4, 4) && Qt.HasShape(4, 4) && R.HasShape(4, 4)
      && xk1 != Pk1 && xk1 != A && xk1 != Qt && xk1 != R && xk1 != zt
      && Pk1 != A && Pk1 != Qt && Pk1 != R && Pk1 != zt
      && A != Qt && A != R && A != zt
      && Qt != R && Qt != zt
      && R != zt
      && Symmetric(Pk1.matrix) && Symmetric(R.matrix)
    }

    /** The state initKalman leaves behind for the sample `location`. */
    ghost predicate InitializedFrom(location: Location)
      reads this, xk1, Pk1, A, R
    {
      && xk1.matrix == AtRest(Position(CoordinateOf(location)))
      && Pk1.matrix == Zero(4, 4)
      && A.matrix == Identity(4)
      && R.matrix == Scale(storedRValue, Identity(4))
      && previousLocation == CoordinateOf(location)
      && previousMeasureTime == location.timestamp
    }

    /** Whether one cycle from the current estimate is defined after a gap of dt seconds. */
    ghost predicate CanFilter(dt: real)
      reads this, Pk1, R
    {
      && Pk1.matrix.HasShape(4, 4) && R.matrix.HasShape(4, 4)
      && Invertible(Add(PredictedCovariance(Transition(4, dt), Pk1.matrix, ProcessNoise(4, Sigma, dt)), R.matrix))
    }

    constructor (initialLocation: Location)
      ensures Valid()
      ensures fresh(xk1) && fresh(Pk1) && fresh(A) && fresh(Qt) && fresh(R) && fresh(zt)
      ensures storedRValue == DefaultRValue
      ensures InitializedFrom(initialLocation)
      ensures Qt.matrix == Zero(4, 4) && zt.matrix == Zero(4, 1)
    {
      storedRValue := DefaultRValue;
      // The clock reading and the empty location stored here are
      // overwritten by initKalman at once.
      previousMeasureTime := 0.0;
      previousLocation := Coordinate(0.0, 0.0);
      xk1 := new HCMatrixObject(4, 1);
      Pk1 := new HCMatrixObject(4, 4);
      A := new HCMatrixObject(4, 4);
      Qt := new HCMatrixObject(4, 4);
      R := new HCMatrixObject(4, 4);
      zt := new HCMatrixObject(4, 1);
      new;
      InitialMatricesSymmetric(4, 0.0);
      Extensionality(Qt.matrix, Zero(4, 4));
      Extensionality(zt.matrix, Zero(4, 1));
      InitKalman(initialLocation);
    }

    /** The getter of `rValue`. */
    function RValue(): (r: real)
      reads this
      ensures r == storedRValue
    {
      storedRValue
    }

    /** The setter of `rValue`: R itself picks the value up only at the next reset. */
    method SetRValue(value: real)
      requires Valid()
      modifies this
      ensures Valid()
      ensures storedRValue == value && RValue() == value
      ensures xk1 == old(xk1) && Pk1 == old(Pk1) && A == old(A)
      ensures Qt == old(Qt) && R == old(R) && zt == old(zt)
      ensures previousLocation == old(previousLocation) && previousMeasureTime == old(previousMeasureTime)
    {
      storedRValue := value;
    }

    /**
     * `initKalman(initialLocation:)`: the sample becomes the previous one,
     * the state is the sample at rest, P is zero, A the identity and R the
     * identity scaled by `_rValue`.
     */
    method InitKalman(initialLocation: Location)
      requires Valid()
      modifies this, xk1, Pk1, A, R
      ensures Valid()
      ensures xk1 == old(xk1) && Pk1 == old(Pk1) && A == old(A) && Qt == old(Qt) && R == old(R) && zt == old(zt)
      ensures storedRValue == old(storedRValue)
      ensures InitializedFrom(initialLocation)
      ensures Qt.matrix == old(Qt.matrix) && zt.matrix == old(zt.matrix)
    {
      InitialMatricesSymmetric(4, storedRValue);
      previousMeasureTime := initialLocation.timestamp;
      previousLocation := CoordinateOf(initialLocation);
      xk1.SetMatrix(InitialStateRows(initialLocation));
      Pk1.SetMatrix(Zero(4, 4).grid);
      A.SetMatrix(Identity(4).grid);
      R.SetMatrix(Scale(storedRValue, Identity(4)).grid);
    }

    /** `resetKalman(newStartLocation:)`: initKalman again; only `_rValue` carries over. */
    method ResetKalman(newStartLocation: Location)
      requires Valid()
      modifies this, xk1, Pk1, A, R
      ensures Valid()
      ensures xk1 == old(xk1) && Pk1 == old(Pk1) && A == old(A) && Qt == old(Qt) && R == old(R) && zt == old(zt)
      ensures storedRValue == old(storedRValue)
      ensures InitializedFrom(newStartLocation)
      ensures Qt.matrix == old(Qt.matrix) && zt.matrix == old(zt.matrix)
    {
      InitKalman(newStartLocation);
    }

    /**
     * `accelerationNoiseMagnitudeMatrix(_:)`: the rows of Qt for the
     * interval dt, appended one at a time.
     */
    method AccelerationNoiseMagnitudeMatrix(timeInterval: real) returns (matrix: seq<seq<real>>)
      ensures Rectangular(matrix) && |matrix| == 4 && |matrix[0]| == 4
      ensures FromRows(matrix) == ProcessNoise(4, Sigma, timeInterval)
    {
      matrix := [];
      matrix := matrix + [[Sigma * (Pow(timeInterval, 4) / 4.0), Sigma * (Pow(timeInterval, 3) / 2.0), 0.0, 0.0]];
      matrix := matrix + [[Sigma * (Pow(timeInterval, 3) / 2.0), Sigma * Pow(timeInterval, 2), 0.0, 0.0]];
      matrix := matrix + [[0.0, 0.0, Sigma * (Pow(timeInterval, 4) / 4.0), Sigma * (Pow(timeInterval, 3) / 2.0)]];
      matrix := matrix + [[0.0, 0.0, Sigma * (Pow(timeInterval, 3) / 2.0), Sigma * Pow(timeInterval, 2)]];
      Extensionality(FromRows(matrix), ProcessNoise(4, Sigma, timeInterval));
    }

    /** The prediction matrix A for the interval dt. */
    method SetPredictionMatrix(dt: real)
      requires Valid()
      modifies A
      ensures Valid() && A.matrix == Transition(4, dt)
    {
      A.SetMatrix(TransitionRows(dt));
    }

    /** The acceleration noise matrix Qt for the interval dt. */
    method SetAccelerationNoise(dt: real)
      requires Valid()
      modifies Qt
      ensures Valid() && Qt.matrix == ProcessNoise(4, Sigma, dt)
    {
      var rows := AccelerationNoiseMagnitudeMatrix(dt);
      Qt.SetMatrix(rows);
    }

    /** The measured state zt from the previous coordinates and the current sample, dt seconds apart. */
    method SetMeasuredState(currentLocation: Location, dt: real)
      requires Valid() && dt != 0.0
      modifies zt
      ensures Valid() && zt.matrix == Measurement(Position(CoordinateOf(currentLocation)), Position(previousLocation), dt)
    {
      zt.SetMatrix(MeasurementRows(previousLocation, currentLocation, dt));
    }

    /**
     * `processState(currentLocation:)`: rebuilds A, Qt and zt for the time
     * since the previous sample, keeps the sample's coordinates as the
     * previous ones and runs one filter cycle.
     */
    method ProcessState(currentLocation: Location) returns (filtered: Coordinate)
      requires Valid()
      requires currentLocation.timestamp != previousMeasureTime
      requires CanFilter(currentLocation.timestamp - previousMeasureTime)
      modifies this, A, Qt, zt
      ensures Valid() && fresh(xk1) && fresh(Pk1)
      ensures A == old(A) && Qt == old(Qt) && R == old(R) && zt == old(zt)
      ensures storedRValue == old(storedRValue) && R.matrix == old(R.matrix)
      ensures var dt := currentLocation.timestamp - old(previousMeasureTime);
              && A.matrix == Transition(4, dt)
              && Qt.matrix == ProcessNoise(4, Sigma, dt)
              && zt.matrix == Measurement(Position(CoordinateOf(currentLocation)), Position(old(previousLocation)), dt)
      ensures Estimate(xk1.matrix, Pk1.matrix) ==
              Step(A.matrix, Qt.matrix, R.matrix, zt.matrix, old(xk1.matrix), old(Pk1.matrix))
      ensures previousLocation == CoordinateOf(currentLocation) && previousMeasureTime == currentLocation.timestamp
      ensures filtered == Coordinate(xk1.matrix.grid[0][0], xk1.matrix.grid[2][0])
    {
      ghost var x, p := xk1.matrix, Pk1.matrix;
      var newMeasureTime := currentLocation.timestamp;
      var timeInterval := newMeasureTime - previousMeasureTime;
      SetPredictionMatrix(timeInterval);
      SetAccelerationNoise(timeInterval);
      SetMeasuredState(currentLocation, timeInterval);
      previousLocation := CoordinateOf(currentLocation);
      previousMeasureTime := newMeasureTime;
      assert xk1.matrix == x && Pk1.matrix == p;
      filtered := KalmanFilter();
    }

    /** `kalmanFilter()`: one predict/update cycle, replacing xk1 and Pk1. */
    method KalmanFilter() returns (filtered: Coordinate)
      requires Valid() && Symmetric(Qt.matrix)
      requires CanStep(A.matrix, Qt.matrix, R.matrix, zt.matrix, xk1.matrix, Pk1.matrix)
      modifies this
      ensures Valid() && fresh(xk1) && fresh(Pk1)
      ensures A == old(A) && Qt == old(Qt) && R == old(R) && zt == old(zt)
      ensures storedRValue == old(storedRValue)
      ensures previousLocation == old(previousLocation) && previousMeasureTime == old(previousMeasureTime)
      ensures Estimate(xk1.matrix, Pk1.matrix) ==
              Step(A.matrix, Qt.matrix, R.matrix, zt.matrix, old(xk1.matrix), old(Pk1.matrix))
      ensures filtered == Coordinate(xk1.matrix.grid[0][0], xk1.matrix.grid[2][0])
    {
      var xk, pk := Predict(A, xk1, Pk1, Qt);
      var kt := ComputeGain(pk, R);
      var xt, pt := Correct(xk, kt, zt, pk);
      StepKeepsCovarianceSymmetric(A.matrix, Qt.matrix, R.matrix, zt.matrix, xk1.matrix, Pk1.matrix);
      xk1 := xt;
      Pk1 := pt;
      filtered := Coordinate(xk1.matrix.grid[0][0], xk1.matrix.grid[2][0]);
    }
  }

  /**
   * What the first cycle after starting from `first` returns for the sample
   * `second`, with sensor noise scale `rValue`: one step from `first` at
   * rest with zero covariance.
   */
  function FirstOutput(first: Location, second: Location, rValue: real): Coordinate
    requires second.timestamp != first.timestamp
    requires Invertible(Add(ProcessNoise(4, Sigma, second.timestamp - first.timestamp), Scale(rValue, Identity(4))))
  {
    var dt := second.timestamp - first.timestamp;
    PredictedCovarianceFromZero(Transition(4, dt), ProcessNoise(4, Sigma, dt));
    var e := Step(Transition(4, dt), ProcessNoise(4, Sigma, dt), Scale(rValue, Identity(4)),
                  Measurement(Position(CoordinateOf(second)), Position(CoordinateOf(first)), dt), AtRest(Position(CoordinateOf(first))), Zero(4, 4));
    Coordinate(e.x.grid[0][0], e.x.grid[2][0])
  }

  /**
   * The first output the estimator would give if zt took its velocity
   * forward, (current - previous) / dt, as the transition assumes.
   */
  function ForwardFirstOutput(first: Location, second: Location, rValue: real): Coordinate
    requires second.timestamp != first.timestamp
    requires Invertible(Add(ProcessNoise(4, Sigma, second.timestamp - first.timestamp), Scale(rValue, Identity(4))))
  {
    var dt := second.timestamp - first.timestamp;
    PredictedCovarianceFromZero(Transition(4, dt), ProcessNoise(4, Sigma, dt));
    var e := Step(Transition(4, dt), ProcessNoise(4, Sigma, dt), Scale(rValue, Identity(4)),
                  ForwardMeasurement(Position(CoordinateOf(second)), Position(CoordinateOf(first)), dt), AtRest(Position(CoordinateOf(first))), Zero(4, 4));
    Coordinate(e.x.grid[0][0], e.x.grid[2][0])
  }

  /** Resetting an estimator, whatever it did before, and processing a sample gives the first output. */
  method ResetThenProcess(f: HCKalmanAlgorithm, first: Location, second: Location) returns (filtered: Coordinate)
    requires f.Valid()
    requires second.timestamp != first.timestamp
    requires Invertible(Add(ProcessNoise(4, Sigma, second.timestamp - first.timestamp), Scale(f.storedRValue, Identity(4))))
    modifies f, f.xk1, f.Pk1, f.A, f.Qt, f.R, f.zt
    ensures filtered == FirstOutput(first, second, old(f.storedRValue))
  {
    PredictedCovarianceFromZero(Transition(4, second.timestamp - first.timestamp),
                                ProcessNoise(4, Sigma, second.timestamp - first.timestamp));
    ghost var rValue := f.storedRValue;
    f.ResetKalman(first);
    ghost var dt := second.timestamp - first.timestamp;
    filtered := f.ProcessState(second);
    assert Estimate(f.xk1.matrix, f.Pk1.matrix) ==
           Step(Transition(4, dt), ProcessNoise(4, Sigma, dt), Scale(rValue, Identity(4)),
                Measurement(Position(CoordinateOf(second)), Position(CoordinateOf(first)), dt), AtRest(Position(CoordinateOf(first))), Zero(4, 4));
  }

  /** A newly constructed estimator fed a second sample gives the first output. */
  method FreshThenProcess(first: Location, second: Location) returns (filtered: Coordinate)
    requires second.timestamp != first.timestamp
    requires Invertible(Add(ProcessNoise(4, Sigma, second.timestamp - first.timestamp), Scale(DefaultRValue, Identity(4))))
    ensures filtered == FirstOutput(first, second, DefaultRValue)
  {
    PredictedCovarianceFromZero(Transition(4, second.timestamp - first.timestamp),
                                ProcessNoise(4, Sigma, second.timestamp - first.timestamp));
    var g := new HCKalmanAlgorithm(first);
    ghost var dt := second.timestamp - first.timestamp;
    filtered := g.ProcessState(second);
    assert Estimate(g.xk1.matrix, g.Pk1.matrix) ==
           Step(Transition(4, dt), ProcessNoise(4, Sigma, dt), Scale(DefaultRValue, Identity(4)),
                Measurement(Position(CoordinateOf(second)), Position(CoordinateOf(first)), dt), AtRest(Position(CoordinateOf(first))), Zero(4, 4));
  }

  /**
   * Resetting an estimator that keeps the default sensor noise scale gives
   * the output of a newly constructed estimator fed the same two samples.
   */
  method ResetMatchesFreshStart(f: HCKalmanAlgorithm, first: Location, second: Location)
    returns (afterReset: Coordinate, fromFresh: Coordinate)
    requires f.Valid() && f.storedRValue == DefaultRValue
    requires second.timestamp != first.timestamp
    requires Invertible(Add(ProcessNoise(4, Sigma, second.timestamp - first.timestamp), Scale(DefaultRValue, Identity(4))))
    modifies f, f.xk1, f.Pk1, f.A, f.Qt, f.R, f.zt
    ensures afterReset == fromFresh
  {
    afterReset := ResetThenProcess(f, first, second);
    fromFresh := FreshThenProcess(first, second);
  }
}
