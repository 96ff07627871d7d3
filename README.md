# Perceptron: a verified model of a single-layer perceptron trainer

The program generates a labelled training set of three-dimensional points,
draws a random weight vector (three feature weights and a bias), and trains it
with the perceptron learning rule. Each epoch visits every point, classifies it
with the threshold test `x*w0 + y*w1 + z*w2 + w3 >= THETA`, and moves every
weight by `LEARNING_RATE * error * input` (the bias input is 1). Training stops
after an epoch with zero squared error or once the epoch count passes
`ITERATION_LIMIT`.

The model is one Dafny module, `Perceptron` in `perceptron.dfy`:

- The random source is a parameter: a sequence `draws` of reals in [0, 1),
  consumed in program order (x, y, z for each of the 50 points, then the four
  weights). `UnitDraws` states the [0, 1) promise of `Random.nextDouble`.
- `real` stands for Java's `double`.
- The training loop keeps its form as imperative Dafny:
  - `GenerateTrainingData` has the two `for` loops that fill the parallel
    arrays `x`, `y`, `z` and `outputClasses`.
  - `InitWeights` has the four weight draws.
  - `TrainEpoch` has the inner `for` loop. It updates `weights` (an
    `array<real>` of length 4) in place.
  - `Train` has the outer `while` loop.
  - `Run` composes the four.
- The update of one point is written inline in the source. Here it is the
  small method `TrainPoint`, so that its arithmetic is proved apart from the
  loop.
- Each method is proved against pure specification functions:
  - `Classify`, `LocalError` and `Step` for one point;
  - `EpochWeights` and `EpochError` for one pass over the first `k` points,
    with the weights changing as the pass goes;
  - `Training` for the `while` loop, as a recursion over epochs;
  - `TrainingSample`, `TrainingSet` and `InitialWeights` for the generated data.
- The lemmas state what those functions promise.

Notes on the source:

- The points are meant to be linearly separable by construction
  (src/doulighan/Perceptron.java:14). The class ranges are not disjoint in
  every coordinate: the x ranges overlap ([2, 10) for class 1, [-10, 5) for
  class 0). The y ranges ([4, 8) and [-3, 4)) and the z ranges ([3, 9) and
  [-7, 2)) are disjoint, so the plane y = 4 separates every generated set
  (`TrainingSetSeparable`).
- In exact arithmetic the ranges are half-open, because `nextDouble` never
  returns 1. In `double` arithmetic the strict upper bound does not always
  hold (see "## Left out").
- `generateRandomDouble` computes the width `rangeMax - rangeMin` in `int`
  arithmetic. A width above 2^31 - 1 wraps to a negative value, and the result
  then falls below `rangeMin` (`GenerateRandomDoubleWraps`). The program's
  widths are at most 20, so this never happens in the program itself.
- The loop guard `iterationCount <= ITERATION_LIMIT` allows up to
  `ITERATION_LIMIT + 1` epochs (101), although the constant is commented as
  the maximum iteration.

## Model

| member | source | states |
|---|---|---|
| `Perceptron.IntSub` | src/doulighan/Perceptron.java:131 | the `int` subtraction `rangeMax - rangeMin`: the result is an `int`, differs from the exact difference by 0 or ±2^32, and equals it exactly when the exact difference is an `int` |
| `Perceptron.GenerateRandomDouble` | src/doulighan/Perceptron.java:129-132 | for a draw in [0, 1) and min < max with a width that is an `int` the value lies in [min, max); for min == max it is min |
| `Perceptron.GenerateRandomDoubleWraps` | src/doulighan/Perceptron.java:131 | when max - min exceeds 2^31 - 1 the width wraps to max - min - 2^32, and every draw in (0, 1) gives a value below min |
| `Perceptron.GenerateRandomDoubleWidestRange` | src/doulighan/Perceptron.java:131 | for the widest `int` range the width is -1, and the draw 0.5 gives min - 0.5 |
| `Perceptron.GenerateRandomDoubleMonotone` | src/doulighan/Perceptron.java:129-132 | while the width does not wrap, a larger draw gives a strictly larger value, so distinct draws give distinct values |
| `Perceptron.GenerateRandomDoubleOnto` | src/doulighan/Perceptron.java:129-132 | while the width does not wrap, every value of [min, max) is produced by some draw in [0, 1) |
| `Perceptron.Classify` | src/doulighan/Perceptron.java:88-89 | output is 0 or 1; it is 1 exactly when the weighted sum `WeightedSum` (line 88) is at least THETA (a point on the plane is class 1) and 0 exactly when it is below |
| `Perceptron.ClassifyScaleInvariant` | src/doulighan/Perceptron.java:120-121 | with THETA = 0 only the plane decides: scaling all four weights by a positive factor never changes a class |
| `Perceptron.LocalError` | src/doulighan/Perceptron.java:92 | the error is 0 exactly when the point is classified as its label; with a label in {0, 1} it lies in {-1, 0, 1}, and it is 1 for a missed class-1 point and -1 for a wrong class-1 answer on a class-0 point |
| `Perceptron.Step` | src/doulighan/Perceptron.java:92-96 | a correctly classified point leaves all four weights unchanged |
| `Perceptron.StepMovesTowardLabel` | src/doulighan/Perceptron.java:92-96 | the update changes the point's own weighted sum by LEARNING_RATE * error * (x² + y² + z² + 1), so a missed class-1 point's sum rises and a wrongly accepted class-0 point's sum falls |
| `Perceptron.TrainPoint` | src/doulighan/Perceptron.java:88-96 | returns the point's error and changes the weights array in place to `Step` of its old value; each feature weight moves by LEARNING_RATE * error * feature, the bias by LEARNING_RATE * error, nothing else changes |
| `Perceptron.EpochWeights` | src/doulighan/Perceptron.java:85-96 | the weights after the first k points of a pass, each point updated by `Step` from the weights the point before it left; the pass starts from the weights it is given |
| `Perceptron.EpochWeightsUnchanged` | src/doulighan/Perceptron.java:85-96 | when the starting weights classify each of the first k points as its label, every intermediate weight vector of the pass equals the starting one |
| `Perceptron.UpdateMatchesStep` | src/doulighan/Perceptron.java:88-96 | the inline sum, threshold and error of the loop body compute `LocalError`, and the four inline `+=` updates compute `Step` |
| `Perceptron.EpochError` | src/doulighan/Perceptron.java:81-99 | the sum of squared errors over a pass is never negative |
| `Perceptron.Mistakes` | src/doulighan/Perceptron.java:85-92 | the number of points misclassified when visited is at most the number of points visited |
| `Perceptron.EpochErrorCountsMistakes` | src/doulighan/Perceptron.java:81-99 | with labels in {0, 1}, an epoch's totalError equals the number of points it misclassified, so 0 <= totalError <= the number of points |
| `Perceptron.ZeroEpochError` | src/doulighan/Perceptron.java:85-100 | an epoch has zero error if and only if the weights it starts with classify every point as its label; in that case the epoch leaves the weights unchanged |
| `Perceptron.TrainEpoch` | src/doulighan/Perceptron.java:81-100 | after one pass the weights array holds `EpochWeights` of its old value and the returned totalError is `EpochError` of the pass |
| `Perceptron.Training` | src/doulighan/Perceptron.java:78-82 | the loop only counts up; from a count of at most ITERATION_LIMIT + 1 it ends at most at ITERATION_LIMIT + 1; on exit either totalError == 0 or the count passed ITERATION_LIMIT; an entered loop runs at least one epoch |
| `Perceptron.TrainingConverged` | src/doulighan/Perceptron.java:80-100 | if training ends with totalError == 0, the final weights classify every training point as its stored label |
| `Perceptron.TrainingErrorBounded` | src/doulighan/Perceptron.java:80-99 | with labels in {0, 1}, the final totalError lies between 0 and the size of the training set |
| `Perceptron.Train` | src/doulighan/Perceptron.java:78-104 | the weights and loop variables end as `Training` from totalError = -1 and count 0; 1 <= iterationCount <= ITERATION_LIMIT + 1; exit on zero error or on the cap; zero error means every point is classified as its label |
| `Perceptron.TrainingSample` | src/doulighan/Perceptron.java:54-68 | point i is class 1 exactly when i < N/2 and class 0 otherwise; class-1 points have x in [2, 10), y in [4, 8), z in [3, 9); class-0 points have x in [-10, 5), y in [-3, 4), z in [-7, 2) |
| `Perceptron.TrainingSet` | src/doulighan/Perceptron.java:43 | the set has TRAINING_DATA_SIZE points and every label is 0 or 1 |
| `Perceptron.TrainingSetSeparable` | src/doulighan/Perceptron.java:53-68 | every generated training set is linearly separable: some weight vector classifies all its points as their labels |
| `Perceptron.GenerateTrainingData` | src/doulighan/Perceptron.java:54-68 | the four arrays are fresh, have TRAINING_DATA_SIZE elements, and every index holds exactly point i of `TrainingSet` (first half class 1, second half class 0) |
| `Perceptron.InitialWeights` | src/doulighan/Perceptron.java:70-73 | the initial weights and bias each lie in [0, 1) |
| `Perceptron.InitWeights` | src/doulighan/Perceptron.java:70-73 | a fresh four-element array holding `InitialWeights` |
| `Perceptron.Run` | src/doulighan/Perceptron.java:37-104 | the program's training result is `Training` of the generated set and initial weights; it runs 1 to ITERATION_LIMIT + 1 epochs; the final totalError lies in [0, TRAINING_DATA_SIZE]; when it is 0 the final weights separate the training set; every generated training set is separable by some weight vector |

## Left out

- Console output: the point dumps (lines 59, 67), the per-epoch RMS lines (102-103), the plane equation (106-111) and the test-point lines (122-124). They are I/O and carry no logic.
- The root-mean-squared error `Math.sqrt(totalError / TRAINING_DATA_SIZE)` (line 102). It is only printed and feeds nothing back.
- `java.util.Random` (line 130). The draws are an input sequence of reals in [0, 1); the generator itself is not modelled.
- The ten random test points (lines 115-119). They are random input plus printing. Their classification (lines 120-121) is the same threshold test as `Classify`.
- IEEE-754 `double` arithmetic (rounding, NaN, signed zero). `real` is exact, and `LEARNING_RATE = .1` is the exact real 0.1.
- GenerateRandomDouble, TrainingSample: the strict upper bounds (`r < rangeMax`, x < 10, y < 8, z < 9) hold in exact arithmetic only. In `double` arithmetic the largest draw, 1 - 2^-53, rounds `2 + 8 * draw` to 10.0, and in the same way (4, 8) can give 8.0 and (3, 9) can give 9.0. The program can therefore produce class-1 points with x = 10, y = 8 or z = 9, which the model does not capture. The class-0 ranges and (0, 1) stay below their maximum, and the separation by the plane y = 4 still holds.
- Convergence within the iteration cap (the perceptron convergence theorem). The code does not promise it, and it depends on the random data and initial weights. The model proves that the data is separable and what holds when training does stop on zero error.
- The constants are `public static` non-final fields in the source. They are modelled as constants because nothing assigns them.
- GenerateRandomDouble: says nothing about rangeMin > rangeMax, because the program never calls it that way. Its [min, max) bound is stated only for widths up to 2^31 - 1, because a wider range wraps in `int` arithmetic and falls outside it (the wrapped value is computed and stated by `GenerateRandomDoubleWraps`).
- GenerateRandomDoubleMonotone, GenerateRandomDoubleOnto: stated only for widths up to 2^31 - 1, because the wrapped width is negative and the map is then decreasing.
