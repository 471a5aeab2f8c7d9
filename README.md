# HCKalmanFilter in Dafny

This project models the core of HCKalmanFilter, a Swift library that smooths a
stream of GPS samples with a discrete linear Kalman filter. The core has three
parts:

- **The matrix container `HCMatrixObject`** (`matrix_object.dfy`). It is a class
  that holds a Surge `Matrix<Double>` together with its own `rows` and `columns`
  fields. It can be created zero-filled or as an identity matrix. It can be
  written one entry at a time or all at once, and read one entry at a time. It
  can be transposed and inverted, and combined with `+`, `-` and `*`.
- **The altitude-aware estimator** (`kalman6.dfy`). Its six-entry state is
  latitude, longitude and altitude, each followed by its velocity.
- **The planar estimator** (`kalman4.dfy`). Its four-entry state is latitude
  and longitude, each followed by its velocity. It also has the helper
  `accelerationNoiseMagnitudeMatrix`.

Each estimator is a class with these fields:

- the previous state `xk1` and its covariance `Pk1`;
- the prediction matrix `A`, the acceleration noise `Qt` and the sensor noise `R`;
- the measured state `zt`;
- the sensor noise scale `_rValue`;
- the previous sample and its time.

Both estimators share the same operations:

- `processState` rebuilds `A`, `Qt` and `zt` from the time since the previous
  sample.
- `kalmanFilter` then runs one predict/update cycle.

The other modules support them:

- **`matrices.dfy`** is the value a Surge matrix holds. It provides zero,
  identity, sum, difference, product, transpose and inverse, and proves the
  algebra the estimators rely on. That algebra includes associativity of the
  product, transpose of a product and uniqueness of the inverse.
- **`kalman_equations.dfy`** holds the filter's equations as functions of
  matrices:
  - the transition matrix for an interval dt;
  - the acceleration noise;
  - the measured state;
  - one cycle, `Step`.

  It proves what these equations promise:
  - the prediction is constant-velocity motion;
  - a state at rest stays where it is;
  - the covariance stays symmetric through a full cycle;
  - a sensor with zero noise is believed exactly;
  - a measurement equal to the prediction leaves it unchanged.
- **`kalman_cycle.dfy`** runs the three stages of `kalmanFilter` on the matrix
  container. Each stage is proved equal to the corresponding equation.
- **`first_step.dfy`** works out the planar estimator's first cycle in closed
  form for two samples one second apart. It gives the new covariance, whose
  diagonal is positive and which is positive semidefinite. It also
  shows that the velocity `zt` holds, (previous - current) / dt, pulls the
  first output away from the new sample, and that the forward velocity would keep it between the two (see
  "## Findings").
- **`locations.dfy`** holds the location records.
- **`wrappers.dfy`** holds `Option`.

Both estimators' `processState` is proved to leave the estimate equal to `Step`
applied to the previous estimate. The matrices it uses are the ones the source
writes out as literals, and its result is built from entries 0, 2 (and 4) of
the new state.

After a reset from a sample, processing the next sample gives one `Step`
from that sample at rest with zero covariance. That `Step` uses the
estimator's own `rValue`, which survives the reset. `ResetThenProcess` proves
this. A new estimator starts from `rValue` 29.0, so the two agree when the
reset estimator's `rValue` is the default 29.0. `ResetMatchesFreshStart`
proves that case. An estimator whose `rValue` was changed can give a different
output after a reset than a new one, for instance when the two samples differ
in position (`FirstStep.FirstOutputLeavesSegment` gives the first latitude for
every positive `rValue`); when they are at the same position both outputs are
that position (`KalmanEquations.StepWithoutInnovation`).

Numbers are real numbers. Swift `Double` rounding is not modelled.

## Model

| member | source | states |
|---|---|---|
| Matrices.Matrix.Set | HCKalmanFilter/HCMatrixObject.swift:53 | Surge's subscript write: entry (i, j) becomes v, every other entry and the shape are unchanged |
| Matrices.FromRows | HCKalmanFilter/HCMatrixObject.swift:93 | Surge's matrix built from rectangular row data: as many rows as the data, as many columns as its first row, and exactly the data's entries |
| Matrices.Zero | HCKalmanFilter/HCMatrixObject.swift:31 | the matrix of the requested shape whose every entry is 0 |
| Matrices.Identity | HCKalmanFilter/HCMatrixObject.swift:43-59 | the square matrix with 1 on the diagonal and 0 everywhere else |
| Matrices.Scale | HCKalmanFilter/HCKalmanAlgorithm.swift:148 | c times a matrix: same shape, each entry multiplied by c; R is rValue times the identity |
| Matrices.Add | HCKalmanFilter/HCMatrixObject.swift:176 | Surge's sum of two matrices of one shape: same shape, entry (i, j) is the sum of the operands' entries |
| Matrices.Sub | HCKalmanFilter/HCMatrixObject.swift:199 | same shape, entry (i, j) is left minus right |
| Matrices.Mul | HCKalmanFilter/HCMatrixObject.swift:217 | Surge's product needs left columns = right rows; it is rows(left) x columns(right) and entry (i, j) is the sum over k of left[i][k] * right[k][j] |
| Matrices.Transpose | HCKalmanFilter/HCMatrixObject.swift:128 | the matrix with rows and columns swapped, entry (i, j) being the operand's (j, i) |
| Matrices.Inverse | HCKalmanFilter/HCMatrixObject.swift:142 | for an invertible matrix, a two-sided inverse: both products with the operand are the identity |
| Matrices.InverseUnique | HCKalmanFilter/HCMatrixObject.swift:142 | a matrix has at most one two-sided inverse, so the inverse is well defined |
| Matrices.IdentityInverse | HCKalmanFilter/HCMatrixObject.swift:43-59 | the identity matrix is invertible and is its own inverse |
| Matrices.MulIdentityLeft | HCKalmanFilter/HCMatrixObject.swift:217 | the identity times a matrix is that matrix |
| Matrices.MulIdentityRight | HCKalmanFilter/HCMatrixObject.swift:217 | a matrix times the identity is that matrix |
| Matrices.MulAssociative | HCKalmanFilter/HCMatrixObject.swift:217 | (A * B) * C = A * (B * C) for all conforming shapes |
| Matrices.MulZeroRight | HCKalmanFilter/HCMatrixObject.swift:217 | a matrix times a zero matrix is the zero matrix of the product's shape |
| Matrices.MulZeroLeft | HCKalmanFilter/HCMatrixObject.swift:217 | a zero matrix times a matrix is the zero matrix of the product's shape |
| Matrices.AddZeroLeft | HCKalmanFilter/HCMatrixObject.swift:176 | zero + A = A |
| Matrices.AddZeroRight | HCKalmanFilter/HCMatrixObject.swift:176 | A + zero = A |
| Matrices.AddSubCancel | HCKalmanFilter/HCMatrixObject.swift:176-199 | A + (B - A) = B |
| Matrices.SubSelf | HCKalmanFilter/HCMatrixObject.swift:199 | A - A is the zero matrix of A's shape |
| Matrices.TransposeInvolutive | HCKalmanFilter/HCMatrixObject.swift:128 | transposing twice gives the original matrix back |
| Matrices.TransposeOfProduct | HCKalmanFilter/HCMatrixObject.swift:128 | (A * B)^T = B^T * A^T |
| Matrices.TransposeOfSum | HCKalmanFilter/HCMatrixObject.swift:128 | (A + B)^T = A^T + B^T |
| Matrices.SymmetricIsOwnTranspose | HCKalmanFilter/HCMatrixObject.swift:128 | a square matrix is symmetric exactly when it equals its transpose |
| MatrixObject.HCMatrixObject.constructor | HCKalmanFilter/HCMatrixObject.swift:28-32 | the fields are the requested shape and every entry is 0 |
| MatrixObject.HCMatrixObject.GetIdentityMatrix | HCKalmanFilter/HCMatrixObject.swift:43-59 | the nested loops over a fresh zero object leave a dim x dim object whose entries are 1 on the diagonal and 0 elsewhere, i.e. the identity |
| MatrixObject.HCMatrixObject.AddElement | HCKalmanFilter/HCMatrixObject.swift:69-79 | an in-range (i, j) is overwritten with value and every other entry is unchanged; an out-of-range index changes nothing |
| MatrixObject.HCMatrixObject.SetMatrix | HCKalmanFilter/HCMatrixObject.swift:87-96 | when the matrix is non-empty and the data has its row count and first-row length, the data replaces the contents; otherwise nothing changes; the fields are never touched |
| MatrixObject.HCMatrixObject.GetElementAsWritten | HCKalmanFilter/HCMatrixObject.swift:106-117 | as written: nil exactly when i < rows or j < columns (every in-range index); a read past the end exactly when both are out of range |
| MatrixObject.HCMatrixObject.GetElement | HCKalmanFilter/HCMatrixObject.swift:106-117 | intended: a value exactly when (i, j) is inside the matrix, and then it is entry (i, j) |
| MatrixObject.HCMatrixObject.GetElementMissesFirstEntry | HCKalmanFilter/HCMatrixObject.swift:108 | on any non-empty matrix the as-written read of (0, 0) is nil where the intended read gives the entry |
| MatrixObject.HCMatrixObject.Transpose | HCKalmanFilter/HCMatrixObject.swift:124-131 | a new object holding the transposed matrix, with the operand's row and column fields; so a non-square consistent operand gives an object whose fields disagree with its matrix |
| MatrixObject.HCMatrixObject.InverseMatrix | HCKalmanFilter/HCMatrixObject.swift:138-145 | a new object holding the inverse, with the operand's fields |
| MatrixObject.HCMatrixObject.Plus | HCKalmanFilter/HCMatrixObject.swift:172-179 | a new object holding the sum, with the left operand's fields |
| MatrixObject.HCMatrixObject.Minus | HCKalmanFilter/HCMatrixObject.swift:189-205 | a new object of the left operand's shape: entrywise left - right when the shape fields agree, the zero matrix when they do not |
| MatrixObject.HCMatrixObject.Times | HCKalmanFilter/HCMatrixObject.swift:215-223 | a new object holding the product, with fields taken from the product's shape |
| KalmanEquations.Transition | HCKalmanFilter/HCKalmanAlgorithm.swift:184 | the n x n prediction matrix: 1 on the diagonal, dt at (2k, 2k+1), 0 elsewhere |
| KalmanEquations.ProcessNoise | HCKalmanFilter/HCKalmanAlgorithm.swift:187-192 | the block-diagonal acceleration noise sigma * [[dt^4/4, dt^3/2], [dt^3/2, dt^2]] per axis; it is symmetric |
| KalmanEquations.Pow | HCKalmanFilter/HCKalmanAlgorithm.swift:187-189 | `pow(dt, k)` for whole k: 1 for k = 0, 1 for base 1, and never negative for a non-negative base |
| KalmanEquations.Measurement | HCKalmanFilter/HCKalmanAlgorithm.swift:197-202 | zt has two entries per axis, and entry 2k is the current coordinate k |
| KalmanEquations.MeasurementEntries | HCKalmanFilter/HCKalmanAlgorithm.swift:197-202 | entry 2k of zt is the current coordinate k and entry 2k+1 times dt is previous minus current |
| KalmanEquations.ForwardMeasurement | HCKalmanFilter/HCKalmanAlgorithm.swift:197-202 | corrected zt: two entries per axis, entry 2k the current coordinate k |
| KalmanEquations.ForwardMeasurementEntries | HCKalmanFilter/HCKalmanAlgorithm.swift:197-202 | corrected zt has the positions of the as-written zt and the opposite velocities, each velocity times dt being current minus previous |
| KalmanEquations.AtRest | HCKalmanFilter/HCKalmanAlgorithm.swift:139 | the initial state: each coordinate followed by velocity 0 |
| KalmanEquations.PredictedCovariance | HCKalmanFilter/HCKalmanAlgorithm.swift:227 | (A * P) * A^T + Qt, a square matrix of the state's dimension |
| KalmanEquations.Gain | HCKalmanFilter/HCKalmanAlgorithm.swift:229-232 | Pk * (Pk + R)^-1, a square matrix of the state's dimension |
| KalmanEquations.Step | HCKalmanFilter/HCKalmanAlgorithm.swift:226-238 | one predict/update cycle; the new state is a column of the state's dimension and the new covariance is square of that dimension |
| KalmanEquations.PositionPrediction | HCKalmanFilter/HCKalmanAlgorithm.swift:226 | each predicted position is the old position plus dt times the old velocity |
| KalmanEquations.VelocityPrediction | HCKalmanFilter/HCKalmanAlgorithm.swift:226 | each predicted velocity is the old velocity |
| KalmanEquations.PredictionFromRest | HCKalmanFilter/HCKalmanAlgorithm.swift:139 | predicting a state at rest, such as the initial state, leaves it unchanged |
| KalmanEquations.PredictedCovarianceFromZero | HCKalmanFilter/HCKalmanAlgorithm.swift:142 | from the zero initial covariance the predicted covariance is exactly Qt |
| KalmanEquations.InitialMatricesSymmetric | HCKalmanFilter/HCKalmanAlgorithm.swift:142-148 | the initial P (zero) and R (rValue times identity) are symmetric |
| KalmanEquations.SymmetricSum | HCKalmanFilter/HCMatrixObject.swift:176 | the sum of two symmetric matrices is symmetric |
| KalmanEquations.SymmetricDifference | HCKalmanFilter/HCMatrixObject.swift:199 | the difference of two symmetric matrices is symmetric |
| KalmanEquations.PredictedCovarianceSymmetric | HCKalmanFilter/HCKalmanAlgorithm.swift:227 | A * P * A^T + Qt is symmetric when P and Qt are |
| KalmanEquations.TransposeIdentity | HCKalmanFilter/HCMatrixObject.swift:43-59 | the identity is its own transpose |
| KalmanEquations.InverseOfSymmetric | HCKalmanFilter/HCMatrixObject.swift:142 | the inverse of an invertible symmetric matrix is symmetric |
| KalmanEquations.MulSubDistributes | HCKalmanFilter/HCKalmanAlgorithm.swift:235 | (A - B) * C = A * C - B * C |
| KalmanEquations.CorrectedCovarianceSymmetric | HCKalmanFilter/HCKalmanAlgorithm.swift:229-235 | (I - K) * Pk is symmetric when Pk and R are, K being the gain |
| KalmanEquations.StepKeepsCovarianceSymmetric | HCKalmanFilter/HCKalmanAlgorithm.swift:226-238 | a full cycle keeps the covariance symmetric when P, Qt and R are symmetric |
| KalmanEquations.GainSolvesInnovation | HCKalmanFilter/HCKalmanAlgorithm.swift:232 | the gain K satisfies K * (Pk + R) = Pk |
| KalmanEquations.StepWithoutInnovation | HCKalmanFilter/HCKalmanAlgorithm.swift:234 | a measurement equal to the prediction leaves the new state equal to the prediction |
| KalmanEquations.StepWithExactSensor | HCKalmanFilter/HCKalmanAlgorithm.swift:229-234 | with zero sensor noise the new state is the measurement |
| KalmanCycle.Predict | HCKalmanFilter/HCKalmanAlgorithm.swift:226-227 | xk is A * xk1 and Pk is the predicted covariance, in new objects, with the operands unchanged |
| KalmanCycle.ComputeGain | HCKalmanFilter/HCKalmanAlgorithm.swift:229-232 | Kt is Pk * (Pk + R)^-1 in a new object |
| KalmanCycle.Correct | HCKalmanFilter/HCKalmanAlgorithm.swift:234-235 | xt is xk + Kt * (zt - xk) and Pt is (I - Kt) * Pk, in new objects |
| Kalman6.InitialStateRows | HCKalmanFilter/HCKalmanAlgorithm.swift:139 | the literal written to xk1 is the sample's position at rest |
| Kalman6.TransitionRows | HCKalmanFilter/HCKalmanAlgorithm.swift:184 | the literal written to A is the 6 x 6 transition matrix for dt |
| Kalman6.ProcessNoiseRows | HCKalmanFilter/HCKalmanAlgorithm.swift:187-192 | the literal written to Qt, from part1..part3, is the 6 x 6 acceleration noise for sigma 0.0625 |
| Kalman6.MeasurementRows | HCKalmanFilter/HCKalmanAlgorithm.swift:197-202 | the literal written to zt is the measured state of the two samples |
| Kalman6.HCKalmanAlgorithm.constructor | HCKalmanFilter/HCKalmanAlgorithm.swift:106-119 | six new, distinct matrix objects of the source's shapes, rValue 29.0, Qt and zt zero, and the state initKalman sets up |
| Kalman6.HCKalmanAlgorithm.RValue | HCKalmanFilter/HCKalmanAlgorithm.swift:41-44 | the getter returns the stored `_rValue`, which SetRValue sets and InitKalman builds R from |
| Kalman6.HCKalmanAlgorithm.SetRValue | HCKalmanFilter/HCKalmanAlgorithm.swift:36-47 | the setter stores the value, which the getter then returns, and changes nothing else, R included |
| Kalman6.HCKalmanAlgorithm.InitKalman | HCKalmanFilter/HCKalmanAlgorithm.swift:129-149 | the sample becomes the previous one; xk1 is it at rest, Pk1 zero, A identity, R rValue times identity; Qt and zt are unchanged |
| Kalman6.HCKalmanAlgorithm.ResetKalman | HCKalmanFilter/HCKalmanAlgorithm.swift:157-160 | the same new state as initKalman, rValue kept |
| Kalman6.HCKalmanAlgorithm.SetPredictionMatrix | HCKalmanFilter/HCKalmanAlgorithm.swift:184 | A becomes the transition matrix for dt |
| Kalman6.HCKalmanAlgorithm.SetAccelerationNoise | HCKalmanFilter/HCKalmanAlgorithm.swift:187-192 | Qt becomes the acceleration noise for dt |
| Kalman6.HCKalmanAlgorithm.SetMeasuredState | HCKalmanFilter/HCKalmanAlgorithm.swift:197-202 | zt becomes the measured state from the previous and current samples |
| Kalman6.HCKalmanAlgorithm.ProcessState | HCKalmanFilter/HCKalmanAlgorithm.swift:171-210 | with dt the time since the previous sample: A, Qt and zt are rebuilt for dt; the estimate becomes one Step from the old one; the sample becomes the previous one; the result is the new latitude, longitude and altitude with the sample's time and accuracy, course and speed |
| Kalman6.HCKalmanAlgorithm.KalmanFilter | HCKalmanFilter/HCKalmanAlgorithm.swift:224-247 | xk1 and Pk1 become new objects holding one Step; the covariance stays symmetric; the location is entries 0, 2, 4 of the new state with the previous sample's time and metadata |
| Kalman6.ResetThenProcess | HCKalmanFilter/HCKalmanAlgorithm.swift:157-210 | after a reset from one sample, processing the next returns one Step from that sample at rest with zero covariance |
| Kalman6.FreshThenProcess | HCKalmanFilter/HCKalmanAlgorithm.swift:106-210 | a new estimator fed its second sample returns that same first output |
| Kalman6.ResetMatchesFreshStart | HCKalmanFilter/HCKalmanAlgorithm.swift:157-160 | with the default rValue, a reset estimator and a new one give the same output for the next sample |
| Kalman4.CoordinateOf | HCKalmanFilter/HCKalmanFilter/HCKalmanAlgorithm/HCKalmanAlgorithm.swift:198 | the coordinate kept of a sample has the sample's latitude and longitude |
| Kalman4.InitialStateRows | HCKalmanFilter/HCKalmanFilter/HCKalmanAlgorithm/HCKalmanAlgorithm.swift:138 | the literal written to xk1 is the sample's coordinate at rest |
| Kalman4.TransitionRows | HCKalmanFilter/HCKalmanFilter/HCKalmanAlgorithm/HCKalmanAlgorithm.swift:183 | the literal written to A is the 4 x 4 transition matrix for dt |
| Kalman4.MeasurementRows | HCKalmanFilter/HCKalmanFilter/HCKalmanAlgorithm/HCKalmanAlgorithm.swift:191-195 | the literal written to zt is the measured state of the two samples |
| Kalman4.HCKalmanAlgorithm.constructor | HCKalmanFilter/HCKalmanFilter/HCKalmanAlgorithm/HCKalmanAlgorithm.swift:105-118 | six new, distinct matrix objects of the source's shapes, rValue 29.0, Qt and zt zero, and the state initKalman sets up |
| Kalman4.HCKalmanAlgorithm.RValue | HCKalmanFilter/HCKalmanFilter/HCKalmanAlgorithm/HCKalmanAlgorithm.swift:40-43 | the getter returns the stored `_rValue`, which SetRValue sets and InitKalman builds R from |
| Kalman4.HCKalmanAlgorithm.SetRValue | HCKalmanFilter/HCKalmanFilter/HCKalmanAlgorithm/HCKalmanAlgorithm.swift:35-46 | the setter stores the value, which the getter then returns, and changes nothing else, R included |
| Kalman4.HCKalmanAlgorithm.InitKalman | HCKalmanFilter/HCKalmanFilter/HCKalmanAlgorithm/HCKalmanAlgorithm.swift:128-148 | the sample's coordinate becomes the previous one; xk1 is it at rest, Pk1 zero, A identity, R rValue times identity |
| Kalman4.HCKalmanAlgorithm.ResetKalman | HCKalmanFilter/HCKalmanFilter/HCKalmanAlgorithm/HCKalmanAlgorithm.swift:156-159 | the same new state as initKalman, rValue kept |
| Kalman4.HCKalmanAlgorithm.AccelerationNoiseMagnitudeMatrix | HCKalmanFilter/HCKalmanFilter/HCKalmanAlgorithm/HCKalmanAlgorithm.swift:206-214 | the four appended rows form the 4 x 4 acceleration noise for sigma 0.0625 and the interval |
| Kalman4.HCKalmanAlgorithm.SetPredictionMatrix | HCKalmanFilter/HCKalmanFilter/HCKalmanAlgorithm/HCKalmanAlgorithm.swift:183 | A becomes the transition matrix for dt |
| Kalman4.HCKalmanAlgorithm.SetAccelerationNoise | HCKalmanFilter/HCKalmanFilter/HCKalmanAlgorithm/HCKalmanAlgorithm.swift:186 | Qt becomes the acceleration noise for dt |
| Kalman4.HCKalmanAlgorithm.SetMeasuredState | HCKalmanFilter/HCKalmanFilter/HCKalmanAlgorithm/HCKalmanAlgorithm.swift:191-195 | zt becomes the measured state from the previous coordinate and the current sample |
| Kalman4.HCKalmanAlgorithm.ProcessState | HCKalmanFilter/HCKalmanFilter/HCKalmanAlgorithm/HCKalmanAlgorithm.swift:170-203 | A, Qt and zt rebuilt for dt; the estimate is one Step from the old one; the sample's coordinate becomes the previous one; the result is the new latitude and longitude |
| Kalman4.HCKalmanAlgorithm.KalmanFilter | HCKalmanFilter/HCKalmanFilter/HCKalmanAlgorithm/HCKalmanAlgorithm.swift:228-247 | xk1 and Pk1 become new objects holding one Step; the covariance stays symmetric; the coordinate is entries 0 and 2 of the new state |
| Kalman4.ResetThenProcess | HCKalmanFilter/HCKalmanFilter/HCKalmanAlgorithm/HCKalmanAlgorithm.swift:156-203 | after a reset from one sample, processing the next returns one Step from that sample at rest with zero covariance |
| Kalman4.FreshThenProcess | HCKalmanFilter/HCKalmanFilter/HCKalmanAlgorithm/HCKalmanAlgorithm.swift:105-203 | a new estimator fed its second sample returns that same first output |
| Kalman4.ResetMatchesFreshStart | HCKalmanFilter/HCKalmanFilter/HCKalmanAlgorithm/HCKalmanAlgorithm.swift:156-159 | with the default rValue, a reset estimator and a new one give the same output for the next sample |
| FirstStep.NoiseAfterOneSecond | HCKalmanFilter/HCKalmanFilter/HCKalmanAlgorithm/HCKalmanAlgorithm.swift:206-214 | for dt = 1 the acceleration noise is [[1/64, 1/32], [1/32, 1/16]] on each axis |
| FirstStep.InnovationCovarianceInverse | HCKalmanFilter/HCKalmanFilter/HCKalmanAlgorithm/HCKalmanAlgorithm.swift:232-235 | in the first cycle with dt = 1 and rValue > 0, Pk + R is invertible and its inverse is [[64r + 4, -2], [-2, 64r + 1]] / (r (64r + 5)) on each axis |
| FirstStep.FirstGain | HCKalmanFilter/HCKalmanFilter/HCKalmanAlgorithm/HCKalmanAlgorithm.swift:230-235 | the first gain for dt = 1 and rValue > 0 is [[1, 2], [2, 4]] / (64 rValue + 5) on each axis |
| FirstStep.FirstCorrectedCovariance | HCKalmanFilter/HCKalmanFilter/HCKalmanAlgorithm/HCKalmanAlgorithm.swift:238 | in the first cycle with dt = 1 and rValue > 0, (I - Kt) * Pk is rValue / (64 rValue + 5) times [[1, 2], [2, 4]] on each axis |
| FirstStep.FirstCovariance | HCKalmanFilter/HCKalmanFilter/HCKalmanAlgorithm/HCKalmanAlgorithm.swift:230-241 | from zero covariance, one second later and for any state and measurement, the new covariance is that block matrix and every diagonal entry is positive |
| FirstStep.FirstCovarianceSemidefinite | HCKalmanFilter/HCKalmanFilter/HCKalmanAlgorithm/HCKalmanAlgorithm.swift:230-241 | the covariance after the first cycle (dt = 1, rValue > 0, any state and measurement) is positive semidefinite: w^T P w >= 0 for every vector w of four entries |
| FirstStep.FirstLatitude | HCKalmanFilter/HCKalmanFilter/HCKalmanAlgorithm/HCKalmanAlgorithm.swift:230-237 | for any measurement, the first filtered latitude is the previous latitude plus (position innovation + 2 * measured velocity) / (64 rValue + 5) |
| FirstStep.FirstOutputLeavesSegment | HCKalmanFilter/HCKalmanFilter/HCKalmanAlgorithm/HCKalmanAlgorithm.swift:191 | as written, the first output moves by -1/(64 rValue + 5) of the step, so it falls below the first latitude whenever the latitude grows |
| FirstStep.FirstOutputFromOrigin | HCKalmanFilter/HCKalmanFilter/HCKalmanAlgorithm/HCKalmanAlgorithm.swift:191 | as written, from latitude 0 at time 0 to latitude 1 at time 1 with rValue 29 the first output latitude is -1/1861 |
| FirstStep.ForwardFirstLatitude | HCKalmanFilter/HCKalmanFilter/HCKalmanAlgorithm/HCKalmanAlgorithm.swift:191 | with the forward velocity the first output moves 3/(64 rValue + 5) of the step |
| FirstStep.ForwardFirstOutputInSegment | HCKalmanFilter/HCKalmanFilter/HCKalmanAlgorithm/HCKalmanAlgorithm.swift:191 | with the forward velocity the first output lies strictly between the two latitudes whenever they differ |

## Left out

- Floating point: `Double` is modelled as a real number, so there is no rounding, overflow, NaN or infinity.
- Convergence: that the filtered track approaches a noise-free, constant-velocity track over many samples is an asymptotic property of the recursion, and it is not worked out. Only the first cycle is solved in closed form, and with the code's velocity sign that first output already leaves such a track (`FirstStep.FirstOutputLeavesSegment`).
- Surge internals, including BLAS and LAPACK: `Surge.add`, `Surge.mul`, `Surge.transpose` and `Surge.inv` are modelled by what they compute. What Surge does with mismatched shapes or an out-of-range subscript is outside the model; the model's `requires` clauses exclude those inputs.
- `InverseMatrix` requires its operand to be invertible, and `ComputeGain`, `KalmanFilter` and `ProcessState` each require Pk + R to be invertible. On a singular matrix Surge's `inv` reports an error the library does not handle; that path is not modelled.
- `ProcessState`: requires the new sample's time to differ from the previous one. With a zero interval the source divides by zero in Double arithmetic. A negative interval is allowed, as in the source.
- `SetMatrix`: requires row data that passes the guard to be rectangular. What Surge's nested-array initializer does with ragged rows is outside the model.
- `AddElement`: its indices are `nat`. A negative index passes the guard at HCMatrixObject.swift:71, and what Surge's subscript then writes is outside the model. Likewise the constructor and `GetIdentityMatrix` take `nat` sizes where the source takes `Int`, so negative sizes are excluded.
- `Minus`: requires consistent operands when the shape fields agree. When they agree but the stored matrices have other shapes, the source's loop indexes outside an operand or the result; that case is outside the model.
- `printMatrix` and every `print` call: console output only.
- `Date()` and `CLLocation()`, the placeholder time and location that `init` stores: replaced by constants that `initKalman` overwrites at once.
- `CLLocation`: reduced to latitude, longitude, altitude, a timestamp in seconds since 1970, and the accuracy, course and speed the 6-state estimator copies.
- The planar estimator's result: a `CLLocation` from latitude and longitude alone, so its time is the current clock reading. It is modelled as a coordinate pair without a time.
- The naive nested-array `HCMatrixObject` that the planar estimator is built against in the original project is not part of this model. The planar estimator is modelled over the same Surge-backed container as the altitude-aware one. Only construction, `setMatrix`, `+`, `-`, `*`, `transpose`, `inverseMatrix` and `getIdentityMatrix` are used. Apart from `inverseMatrix`, they give the same results on the operands the planar estimator passes: square matrices of one size, and columns of that size. They differ elsewhere in two ways. That class's `transpose` swaps the shape fields (HCKalmanFilter Sample/HCKalmanFilter Sample/HCKalmanFilter/HCMatrixObject.swift:125), where the Surge-backed one copies them unswapped. Its `+` and `*` (:300, :352) check the shapes and return a zero matrix on a mismatch, where the Surge-backed ones pass the operands to Surge, and the model excludes a mismatch by `requires`. That class's `inverseMatrix` (HCKalmanFilter Sample/HCKalmanFilter Sample/HCKalmanFilter/HCMatrixObject.swift:199-269) is Gauss-Jordan elimination with a heuristic row swap in place of general pivoting. It divides by a zero pivot on some invertible matrices. One example is the first step with dt = 1 and rValue = -sigma/4, where entry (0, 0) of Pk + R is zero. The model's `Step` uses the true inverse, so the model describes the planar estimator only where that elimination meets no zero pivot. In the first cycle Pk is Qt, which is positive semidefinite, so Pk + R is positive definite when rValue > 0, which excludes such a pivot in plain elimination. For later cycles this depends on P staying positive semidefinite, which is not proved (see the next line). The row swap is not analysed.
- `KalmanEquations.StepKeepsCovarianceSymmetric`: P is proved to stay symmetric through a cycle, but not positive semidefinite. Semi-definiteness after a general step is not proved; it is shown only for the first cycle with dt = 1 and rValue > 0, where `FirstStep.FirstCovariance` gives P in closed form with a positive diagonal and `FirstStep.FirstCovarianceSemidefinite` proves w^T P w >= 0 for every vector w.
- Where the code's behaviour is surprising, the model follows the code:
  - `setMatrix` silently ignores data of the wrong shape.
  - `transpose` and `inverseMatrix` copy the operand's shape fields unswapped.
  - A failed inversion is not a recoverable error.
  - A new `rValue` reaches R only at the next `initKalman` or `resetKalman`, not at the next `processState`.
  - The planar estimator's result carries no metadata.
  - Both estimators keep the velocity (previous - current) / dt in `zt`; the forward velocity appears only in `ForwardMeasurement` and `Kalman4.ForwardFirstOutput`, against which the finding below is proved.
- The closed-form first cycle in `first_step.dfy` covers the planar estimator with dt = 1 and rValue > 0 only; the general interval is not worked out.

## Findings

| source | as written | input that shows it | evidently intended | confidence | as-written member | corrected member |
|---|---|---|---|---|---|---|
| HCKalmanFilter/HCMatrixObject.swift:108 | the guard is `rows <= i && columns <= j`, the negation of the bounds check, so an in-range index returns nil and an index past both bounds is read out of range | `getElement(i: 0, j: 0)` on any non-empty matrix returns nil | `i < rows && j < columns`: return entry (i, j) when it exists, nil otherwise | not executed | MatrixObject.HCMatrixObject.GetElementAsWritten | MatrixObject.HCMatrixObject.GetElement |
| HCKalmanFilter/HCKalmanFilter/HCKalmanAlgorithm/HCKalmanAlgorithm.swift:191 | the velocity in zt is (previous - current) / dt, while A advances the position by +dt * velocity (line 183); the same sign is at HCKalmanFilter/HCKalmanAlgorithm.swift:197 | first sample latitude 0 at time 0, second latitude 1 at time 1, rValue 29: the first output latitude is -1/1861, outside [0, 1] | velocity (current - previous) / dt, which gives 3/1861, strictly between the two latitudes | not executed | FirstStep.FirstOutputLeavesSegment | FirstStep.ForwardFirstOutputInSegment |
