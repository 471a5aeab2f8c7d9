/**
 * The altitude-aware estimator: a six-entry state
 * [lat, lat velocity, lon, lon velocity, alt, alt velocity], filtered over
 * the Surge-backed matrix container.
 */
module Kalman6 {
  import opened Matrices
  import opened KalmanEquations
  import opened Locations
  import opened MatrixObject
  import opened KalmanCycle

  /** The acceleration noise magnitude sigma. */
  const Sigma: real := 0.0625

  /** The initial value of the sensor noise scale `_rValue`. */
  const DefaultRValue: real := 29.0

  /** The positions the state tracks, one per axis. */
  function Position(location: Location): seq<real> {
    [location.latitude, location.longitude, location.altitude]
  }

  /** The literal initKalman gives xk1: [lat, 0, lon, 0, alt, 0]^T. */
  function InitialStateRows(location: Location): (rows: seq<seq<real>>)
    ensures Rectangular(rows) && FromRows(rows) == AtRest(Position(location))
  {
    var rows := [[location.latitude], [0.0], [location.longitude], [0.0], [location.altitude], [0.0]];
    Extensionality(FromRows(rows), AtRest(Position(location)));
    rows
  }

  /** The literal processState gives A: the identity with dt at (0, 1), (2, 3) and (4, 5). */
  function TransitionRows(dt: real): (rows: seq<seq<real>>)
    ensures Rectangular(rows) && FromRows(rows) == Transition(6, dt)
  {
    var rows := [[1.0, dt, 0.0, 0.0, 0.0, 0.0],
                 [0.0, 1.0, 0.0, 0.0, 0.0, 0.0],
                 [0.0, 0.0, 1.0, dt, 0.0, 0.0],
                 [0.0, 0.0, 0.0, 1.0, 0.0, 0.0],
                 [0.0, 0.0, 0.0, 0.0, 1.0, dt],
                 [0.0, 0.0, 0.0, 0.0, 0.0, 1.0]];
    Extensionality(FromRows(rows), Transition(6, dt));
    rows
  }

  /** The literal processState gives Qt from its three parts. */
  function ProcessNoiseRows(dt: real): (rows: seq<seq<real>>)
    ensures Rectangular(rows) && FromRows(rows) == ProcessNoise(6, Sigma, dt)
  {
    var part1 := Sigma * (Pow(dt, 4) / 4.0);
    var part2 := Sigma * (Pow(dt, 3) / 2.0);
    var part3 := Sigma * Pow(dt, 2);
    var rows := [[part1, part2, 0.0, 0.0, 0.0, 0.0],
                 [part2, part3, 0.0, 0.0, 0.0, 0.0],
                 [0.0, 0.0, part1, part2, 0.0, 0.0],
                 [0.0, 0.0, part2, part3, 0.0, 0.0],
                 [0.0, 0.0, 0.0, 0.0, part1, part2],
                 [0.0, 0.0, 0.0, 0.0, part2, part3]];
    Extensionality(FromRows(rows), ProcessNoise(6, Sigma, dt));
    rows
  }

  /** The literal processState gives zt: each current position followed by (previous - current) / dt. */
  function MeasurementRows(previous: Location, current: Location, dt: real): (rows: seq<seq<real>>)
    requires dt != 0.0
    ensures Rectangular(rows) && FromRows(rows) == Measurement(Position(current), Position(previous), dt)
  {
    var velocityX := (previous.latitude - current.latitude) / dt;
    var velocityY := (previous.longitude - current.longitude) / dt;
    var velocityZ := (previous.altitude - current.altitude) / dt;
    var rows := [[current.latitude], [velocityX], [current.longitude], [velocityY], [current.altitude], [velocityZ]];
    var z := Measurement(Position(current), Position(previous), dt);
    assert z.grid[0] == rows[0] && z.grid[1] == rows[1] && z.grid[2] == rows[2];
    assert z.grid[3] == rows[3] && z.grid[4] == rows[4] && z.grid[5] == rows[5];
    assert z.grid == rows;
    rows
  }

  class HCKalmanAlgorithm {
    var storedRValue: real
    var xk1: HCMatrixObject
    var Pk1: HCMatrixObject
    var A: HCMatrixObject
    var Qt: HCMatrixObject
    var R: HCMatrixObject
    var zt: HCMatrixObject
    var previousMeasureTime: real
    var previousLocation: Location

    /**
     * Six distinct matrices of the state's shapes; the covariance and the
     * sensor noise are symmetric.
     */
    ghost predicate Valid()
      reads this, xk1, Pk1, A, Qt, R, zt
    {
      && xk1.HasShape(6, 1) && zt.HasShape(6, 1)
      && Pk1.HasShape(6, 6) && A.HasShape(6, 6) && Qt.HasShape(6, 6) && R.HasShape(6, 6)
      && xk1 != Pk1 && xk1 != A && xk1 != Qt && xk1 != R && xk1 != zt
      && Pk1 != A && Pk1 != Qt && Pk1 != R && Pk1 != zt
      && A != Qt && A != R && A != zt
      && Qt != R && Qt != zt
      && R != zt
      && Symmetric(Pk1.matrix) && Symmetric(R.matrix)
    }

    /** The state initKalman leaves behind for the sample `location`. */
    ghost predicate InitializedFrom(location: Location)
      reads this, xk1, Pk1, A, R
    {
      && xk1.matrix == AtRest(Position(location))
      && Pk1.matrix == Zero(6, 6)
      && A.matrix == Identity(6)
      && R.matrix == Scale(storedRValue, Identity(6))
      && previousLocation == location
      && previousMeasureTime == location.timestamp
    }

    /** Whether one cycle from the current estimate is defined after a gap of dt seconds. */
    ghost predicate CanFilter(dt: real)
      reads this, Pk1, R
    {
      && Pk1.matrix.HasShape(6, 6) && R.matrix.HasShape(6, 6)
      && Invertible(Add(PredictedCovariance(Transition(6, dt), Pk1.matrix, ProcessNoise(6, Sigma, dt)), R.matrix))
    }

    constructor (initialLocation: Location)
      ensures Valid()
      ensures fresh(xk1) && fresh(Pk1) && fresh(A) && fresh(Qt) && fresh(R) && fresh(zt)
      ensures storedRValue == DefaultRValue
      ensures InitializedFrom(initialLocation)
      ensures Qt.matrix == Zero(6, 6) && zt.matrix == Zero(6, 1)
    {
      storedRValue := DefaultRValue;
      // The clock reading and the empty location stored here are
      // overwritten by initKalman at once.
      previousMeasureTime := 0.0;
      previousLocation := Location(0.0, 0.0, 0.0, 0.0, Metadata(0.0, 0.0, 0.0, 0.0));
      xk1 := new HCMatrixObject(6, 1);
      Pk1 := new HCMatrixObject(6, 6);
      A := new HCMatrixObject(6, 6);
      Qt := new HCMatrixObject(6, 6);
      R := new HCMatrixObject(6, 6);
      zt := new HCMatrixObject(6, 1);
      new;
      InitialMatricesSymmetric(6, 0.0);
      Extensionality(Qt.matrix, Zero(6, 6));
      Extensionality(zt.matrix, Zero(6, 1));
      InitKalman(initialLocation);
    }

    /** The getter of `rValue`. */
    function RValue(): (r: real)
      reads this
      ensures r == storedRValue
    {
      storedRValue
    }

    /** The setter of `rValue`: R itself picks the value up only at the next reset. */
    method SetRValue(value: real)
      requires Valid()
      modifies this
      ensures Valid()
      ensures storedRValue == value && RValue() == value
      ensures xk1 == old(xk1) && Pk1 == old(Pk1) && A == old(A)
      ensures Qt == old(Qt) && R == old(R) && zt == old(zt)
      ensures previousLocation == old(previousLocation) && previousMeasureTime == old(previousMeasureTime)
    {
      storedRValue := value;
    }

    /**
     * `initKalman(initialLocation:)`: the sample becomes the previous one,
     * the state is the sample at rest, P is zero, A the identity and R the
     * identity scaled by `_rValue`.
     */
    method InitKalman(initialLocation: Location)
      requires Valid()
      modifies this, xk1, Pk1, A, R
      ensures Valid()
      ensures xk1 == old(xk1) && Pk1 == old(Pk1) && A == old(A) && Qt == old(Qt) && R == old(R) && zt == old(zt)
      ensures storedRValue == old(storedRValue)
      ensures InitializedFrom(initialLocation)
      ensures Qt.matrix == old(Qt.matrix) && zt.matrix == old(zt.matrix)
    {
      InitialMatricesSymmetric(6, storedRValue);
      previousMeasureTime := initialLocation.timestamp;
      previousLocation := initialLocation;
      xk1.SetMatrix(InitialStateRows(initialLocation));
      Pk1.SetMatrix(Zero(6, 6).grid);
      A.SetMatrix(Identity(6).grid);
      R.SetMatrix(Scale(storedRValue, Identity(6)).grid);
    }

    /** `resetKalman(newStartLocation:)`: initKalman again; only `_rValue` carries over. */
    method ResetKalman(newStartLocation: Location)
      requires Valid()
      modifies this, xk1, Pk1, A, R
      ensures Valid()
      ensures xk1 == old(xk1) && Pk1 == old(Pk1) && A == old(A) && Qt == old(Qt) && R == old(R) && zt == old(zt)
      ensures storedRValue == old(storedRValue)
      ensures InitializedFrom(newStartLocation)
      ensures Qt.matrix == old(Qt.matrix) && zt.matrix == old(zt.matrix)
    {
      InitKalman(newStartLocation);
    }

    /** The prediction matrix A for the interval dt. */
    method SetPredictionMatrix(dt: real)
      requires Valid()
      modifies A
      ensures Valid() && A.matrix == Transition(6, dt)
    {
      A.SetMatrix(TransitionRows(dt));
    }

    /** The acceleration noise matrix Qt for the interval dt. */
    method SetAccelerationNoise(dt: real)
      requires Valid()
      modifies Qt
      ensures Valid() && Qt.matrix == ProcessNoise(6, Sigma, dt)
    {
      Qt.SetMatrix(ProcessNoiseRows(dt));
    }

    /** The measured state zt from the previous sample and the current one, dt seconds apart. */
    method SetMeasuredState(currentLocation: Location, dt: real)
      requires Valid() && dt != 0.0
      modifies zt
      ensures Valid() && zt.matrix == Measurement(Position(currentLocation), Position(previousLocation), dt)
    {
      zt.SetMatrix(MeasurementRows(previousLocation, currentLocation, dt));
    }

    /**
     * `processState(currentLocation:)`: rebuilds A, Qt and zt for the time
     * since the previous sample, records the sample as the previous one and
     * runs one filter cycle.
     */
    method ProcessState(currentLocation: Location) returns (filtered: Location)
      requires Valid()
      requires currentLocation.timestamp != previousMeasureTime
      requires CanFilter(currentLocation.timestamp - previousMeasureTime)
      modifies this, A, Qt, zt
      ensures Valid() && fresh(xk1) && fresh(Pk1)
      ensures A == old(A) && Qt == old(Qt) && R == old(R) && zt == old(zt)
      ensures storedRValue == old(storedRValue) && R.matrix == old(R.matrix)
      ensures var dt := currentLocation.timestamp - old(previousMeasureTime);
              && A.matrix == Transition(6, dt)
              && Qt.matrix == ProcessNoise(6, Sigma, dt)
              && zt.matrix == Measurement(Position(currentLocation), Position(old(previousLocation)), dt)
      ensures Estimate(xk1.matrix, Pk1.matrix) ==
              Step(A.matrix, Qt.matrix, R.matrix, zt.matrix, old(xk1.matrix), old(Pk1.matrix))
      ensures previousLocation == currentLocation && previousMeasureTime == currentLocation.timestamp
      ensures filtered == Location(xk1.matrix.grid[0][0], xk1.matrix.grid[2][0], xk1.matrix.grid[4][0],
                                   currentLocation.timestamp, currentLocation.metadata)
    {
      ghost var x, p := xk1.matrix, Pk1.matrix;
      var newMeasureTime := currentLocation.timestamp;
      var timeInterval := newMeasureTime - previousMeasureTime;
      SetPredictionMatrix(timeInterval);
      SetAccelerationNoise(timeInterval);
      SetMeasuredState(currentLocation, timeInterval);
      previousLocation := currentLocation;
      previousMeasureTime := newMeasureTime;
      assert xk1.matrix == x && Pk1.matrix == p;
      filtered := KalmanFilter();
    }

    /** `kalmanFilter()`: one predict/update cycle, replacing xk1 and Pk1. */
    method KalmanFilter() returns (filtered: Location)
      requires Valid() && Symmetric(Qt.matrix)
      requires CanStep(A.matrix, Qt.matrix, R.matrix, zt.matrix, xk1.matrix, Pk1.matrix)
      modifies this
      ensures Valid() && fresh(xk1) && fresh(Pk1)
      ensures A == old(A) && Qt == old(Qt) && R == old(R) && zt == old(zt)
      ensures storedRValue == old(storedRValue)
      ensures previousLocation == old(previousLocation) && previousMeasureTime == old(previousMeasureTime)
      ensures Estimate(xk1.matrix, Pk1.matrix) ==
              Step(A.matrix, Qt.matrix, R.matrix, zt.matrix, old(xk1.matrix), old(Pk1.matrix))
      ensures filtered == Location(xk1.matrix.grid[0][0], xk1.matrix.grid[2][0], xk1.matrix.grid[4][0],
                                   previousMeasureTime, previousLocation.metadata)
    {
      var xk, pk := Predict(A, xk1, Pk1, Qt);
      var kt := ComputeGain(pk, R);
      var xt, pt := Correct(xk, kt, zt, pk);
      StepKeepsCovarianceSymmetric(A.matrix, Qt.matrix, R.matrix, zt.matrix, xk1.matrix, Pk1.matrix);
      xk1 := xt;
      Pk1 := pt;
      filtered := Location(xk1.matrix.grid[0][0], xk1.matrix.grid[2][0], xk1.matrix.grid[4][0],
                           previousMeasureTime, previousLocation.metadata);
    }
  }

  /**
   * What the first cycle after starting from `first` returns for the sample
   * `second`, with sensor noise scale `rValue`: one step from `first` at
   * rest with zero covariance.
   */
  function FirstOutput(first: Location, second: Location, rValue: real): Location
    requires second.timestamp != first.timestamp
    requires Invertible(Add(ProcessNoise(6, Sigma, second.timestamp - first.timestamp), Scale(rValue, Identity(6))))
  {
    var dt := second.timestamp - first.timestamp;
    PredictedCovarianceFromZero(Transition(6, dt), ProcessNoise(6, Sigma, dt));
    var e := Step(Transition(6, dt), ProcessNoise(6, Sigma, dt), Scale(rValue, Identity(6)),
                  Measurement(Position(second), Position(first), dt), AtRest(Position(first)), Zero(6, 6));
    Location(e.x.grid[0][0], e.x.grid[2][0], e.x.grid[4][0], second.timestamp, second.metadata)
  }

  /** Resetting an estimator, whatever it did before, and processing a sample gives the first output. */
  method ResetThenProcess(f: HCKalmanAlgorithm, first: Location, second: Location) returns (filtered: Location)
    requires f.Valid()
    requires second.timestamp != first.timestamp
    requires Invertible(Add(ProcessNoise(6, Sigma, second.timestamp - first.timestamp), Scale(f.storedRValue, Identity(6))))
    modifies f, f.xk1, f.Pk1, f.A, f.Qt, f.R, f.zt
    ensures filtered == FirstOutput(first, second, old(f.storedRValue))
  {
    PredictedCovarianceFromZero(Transition(6, second.timestamp - first.timestamp),
                                ProcessNoise(6, Sigma, second.timestamp - first.timestamp));
    ghost var rValue := f.storedRValue;
    f.ResetKalman(first);
    ghost var dt := second.timestamp - first.timestamp;
    filtered := f.ProcessState(second);
    assert Estimate(f.xk1.matrix, f.Pk1.matrix) ==
           Step(Transition(6, dt), ProcessNoise(6, Sigma, dt), Scale(rValue, Identity(6)),
                Measurement(Position(second), Position(first), dt), AtRest(Position(first)), Zero(6, 6));
  }

  /** A newly constructed estimator fed a second sample gives the first output. */
  method FreshThenProcess(first: Location, second: Location) returns (filtered: Location)
    requires second.timestamp != first.timestamp
    requires Invertible(Add(ProcessNoise(6, Sigma, second.timestamp - first.timestamp), Scale(DefaultRValue, Identity(6))))
    ensures filtered == FirstOutput(first, second, DefaultRValue)
  {
    PredictedCovarianceFromZero(Transition(6, second.timestamp - first.timestamp),
                                ProcessNoise(6, Sigma, second.timestamp - first.timestamp));
    var g := new HCKalmanAlgorithm(first);
    ghost var dt := second.timestamp - first.timestamp;
    filtered := g.ProcessState(second);
    assert Estimate(g.xk1.matrix, g.Pk1.matrix) ==
           Step(Transition(6, dt), ProcessNoise(6, Sigma, dt), Scale(DefaultRValue, Identity(6)),
                Measurement(Position(second), Position(first), dt), AtRest(Position(first)), Zero(6, 6));
  }

  /**
   * Resetting an estimator that keeps the default sensor noise scale gives
   * the output of a newly constructed estimator fed the same two samples.
   */
  method ResetMatchesFreshStart(f: HCKalmanAlgorithm, first: Location, second: Location)
    returns (afterReset: Location, fromFresh: Location)
    requires f.Valid() && f.storedRValue == DefaultRValue
    requires second.timestamp != first.timestamp
    requires Invertible(Add(ProcessNoise(6, Sigma, second.timestamp - first.timestamp), Scale(DefaultRValue, Identity(6))))
    modifies f, f.xk1, f.Pk1, f.A, f.Qt, f.R, f.zt
    ensures afterReset == fromFresh
  {
    afterReset := ResetThenProcess(f, first, second);
    fromFresh := FreshThenProcess(first, second);
  }
}
