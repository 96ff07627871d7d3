/*
 * A single-layer perceptron over three features and a bias, trained with the
 * perceptron learning rule on two generated clusters of points.
 *
 * `real` stands for Java's `double`; the random source is a sequence of draws,
 * each in [0, 1), consumed in the order the program draws them.
 */
module Perceptron {

  // ---------------------------------------------------------------------------
  // Configuration constants of the program
  // ---------------------------------------------------------------------------

  const TrainingDataSize: nat := 50
  /** The loop keeps going while the epoch count is at most this value. */
  const IterationLimit: nat := 100
  /** Threshold of the summation function; a sum equal to it is class 1. */
  const Theta: int := 0
  const LearningRate: real := 0.1

  /** Draws consumed by the generation of the training set: x, y, z per point. */
  const TrainingDraws: nat := 3 * TrainingDataSize
  /** Draws consumed before training starts: the training set, then four weights. */
  const SetupDraws: nat := TrainingDraws + 4

  // ---------------------------------------------------------------------------
  // Data model
  // ---------------------------------------------------------------------------

  /** One weight per feature (x, y, z), then the bias. */
  datatype Weights = Weights(wx: real, wy: real, wz: real, bias: real)

  /** The weight vector held in the program's four-element array. */
  function AsWeights(a: seq<real>): Weights
    requires |a| == 4
  {
    Weights(a[0], a[1], a[2], a[3])
  }

  /** A training point with its expected class. */
  datatype Sample = Sample(x: real, y: real, z: real, expected: int)

  /** The outcome of the training loop: final weights and final loop variables. */
  datatype Outcome = Outcome(weights: Weights, totalError: real, iterationCount: int)

  /** Every draw of the random source lies in [0, 1), as `Random.nextDouble` promises. */
  predicate UnitDraws(draws: seq<real>) {
    forall i :: 0 <= i < |draws| ==> 0.0 <= draws[i] < 1.0
  }

  predicate BinaryLabels(ss: seq<Sample>) {
    forall i :: 0 <= i < |ss| ==> ss[i].expected == 0 || ss[i].expected == 1
  }

  /** The training set held in the program's four parallel arrays. */
  function Samples(xs: seq<real>, ys: seq<real>, zs: seq<real>, ls: seq<int>): (ss: seq<Sample>)
    requires |ys| == |xs| && |zs| == |xs| && |ls| == |xs|
    ensures |ss| == |xs|
  {
    seq(|xs|, i requires 0 <= i < |xs| => Sample(xs[i], ys[i], zs[i], ls[i]))
  }

  // ---------------------------------------------------------------------------
  // Range helper
  // ---------------------------------------------------------------------------

  /** The range of a Java `int`. */
  const Int32Min: int := -0x8000_0000
  const Int32Max: int := 0x7fff_ffff

  predicate IsInt32(v: int) {
    Int32Min <= v <= Int32Max
  }

  /** Java's `int` subtraction: the difference of two `int` values, wrapped
      by 2^32 into the `int` range when it leaves it. */
  function IntSub(a: int, b: int): (r: int)
    requires IsInt32(a) && IsInt32(b)
    ensures IsInt32(r)
    ensures r == a - b || r == a - b - 0x1_0000_0000 || r == a - b + 0x1_0000_0000
    ensures IsInt32(a - b) <==> r == a - b
  {
    var d := a - b;
    if d > Int32Max then d - 0x1_0000_0000
    else if d < Int32Min then d + 0x1_0000_0000
    else d
  }

  /** The width times the draw: the part of the range a draw covers. */
  function ScaleDraw(width: int, draw: real): (p: real)
    ensures width > 0 && 0.0 <= draw < 1.0 ==> 0.0 <= p < width as real
    ensures width < 0 && 0.0 < draw ==> p < 0.0
    ensures width == 0 ==> p == 0.0
  {
    width as real * draw
  }

  /** Maps a draw in [0, 1) affinely onto [rangeMin, rangeMax); the width
      `rangeMax - rangeMin` is an `int` subtraction and wraps. */
  function GenerateRandomDouble(rangeMin: int, rangeMax: int, draw: real): (r: real)
    requires IsInt32(rangeMin) && IsInt32(rangeMax)
    ensures 0.0 <= draw < 1.0 && rangeMin < rangeMax && rangeMax - rangeMin <= Int32Max ==>
      rangeMin as real <= r < rangeMax as real
    ensures rangeMin == rangeMax ==> r == rangeMin as real
  {
    rangeMin as real + ScaleDraw(IntSub(rangeMax, rangeMin), draw)
  }

  /** A range wider than the largest `int` wraps to a negative width, so any
      positive draw gives a value below rangeMin. */
  lemma GenerateRandomDoubleWraps(rangeMin: int, rangeMax: int, draw: real)
    requires IsInt32(rangeMin) && IsInt32(rangeMax)
    requires rangeMax - rangeMin > Int32Max && 0.0 < draw < 1.0
    ensures IntSub(rangeMax, rangeMin) == rangeMax - rangeMin - 0x1_0000_0000
    ensures GenerateRandomDouble(rangeMin, rangeMax, draw) < rangeMin as real
  {
  }

  /** The widest range: its width wraps to -1, and the draw 0.5 gives a value
      below rangeMin. */
  lemma GenerateRandomDoubleWidestRange()
    ensures IntSub(Int32Max, Int32Min) == -1
    ensures GenerateRandomDouble(Int32Min, Int32Max, 0.5) == Int32Min as real - 0.5
  {
  }

  /** Distinct draws give distinct values, in the same order, while the width
      does not wrap. */
  lemma GenerateRandomDoubleMonotone(rangeMin: int, rangeMax: int, d1: real, d2: real)
    requires IsInt32(rangeMin) && IsInt32(rangeMax)
    requires rangeMin < rangeMax && rangeMax - rangeMin <= Int32Max && d1 < d2
    ensures GenerateRandomDouble(rangeMin, rangeMax, d1) < GenerateRandomDouble(rangeMin, rangeMax, d2)
  {
    var lo := GenerateRandomDouble(rangeMin, rangeMax, d1);
    var hi := GenerateRandomDouble(rangeMin, rangeMax, d2);
    var width := IntSub(rangeMax, rangeMin) as real;
    assert lo == rangeMin as real + width * d1;
    assert hi == rangeMin as real + width * d2;
    assert width > 0.0;
    var diff := d2 - d1;
    assert width * d2 == width * d1 + width * diff;
    assert width * diff > 0.0;
    assert lo < hi;
  }

  /** Every value of [rangeMin, rangeMax) is produced by some draw in [0, 1),
      while the width does not wrap. */
  lemma GenerateRandomDoubleOnto(rangeMin: int, rangeMax: int, v: real)
    requires IsInt32(rangeMin) && IsInt32(rangeMax)
    requires rangeMin < rangeMax && rangeMax - rangeMin <= Int32Max
    requires rangeMin as real <= v < rangeMax as real
    ensures exists d :: 0.0 <= d < 1.0 && GenerateRandomDouble(rangeMin, rangeMax, d) == v
  {
    assert IntSub(rangeMax, rangeMin) == rangeMax - rangeMin;
    var width := (rangeMax - rangeMin) as real;
    var d := (v - rangeMin as real) / width;
    assert width * d == v - rangeMin as real;
    assert d < 1.0 by {
      assert v - rangeMin as real < width;
      assert width * d < width * 1.0;
    }
    assert GenerateRandomDouble(rangeMin, rangeMax, d) == v;
  }

  // ---------------------------------------------------------------------------
  // Classifier
  // ---------------------------------------------------------------------------

  /** The summation equation: the weighted features plus the bias. */
  function WeightedSum(w: Weights, x: real, y: real, z: real): real {
    x * w.wx + y * w.wy + z * w.wz + w.bias
  }

  /** The threshold test; a point exactly on the plane is class 1. */
  function Classify(w: Weights, x: real, y: real, z: real): (c: int)
    ensures c == 0 || c == 1
    ensures c == 1 <==> WeightedSum(w, x, y, z) >= Theta as real
    ensures c == 0 <==> WeightedSum(w, x, y, z) < Theta as real
  {
    if WeightedSum(w, x, y, z) >= Theta as real then 1 else 0
  }

  function Scale(w: Weights, k: real): Weights {
    Weights(k * w.wx, k * w.wy, k * w.wz, k * w.bias)
  }

  /** With a zero threshold, only the plane matters: scaling the weights by a
      positive factor never changes a classification. */
  lemma ClassifyScaleInvariant(w: Weights, k: real, x: real, y: real, z: real)
    requires k > 0.0
    ensures Classify(Scale(w, k), x, y, z) == Classify(w, x, y, z)
  {
  }

  // ---------------------------------------------------------------------------
  // One training step
  // ---------------------------------------------------------------------------

  /** Expected class minus predicted class. */
  function LocalError(w: Weights, s: Sample): (e: int)
    ensures e == 0 <==> Classify(w, s.x, s.y, s.z) == s.expected
    ensures s.expected == 0 || s.expected == 1 ==> -1 <= e <= 1
    ensures s.expected == 0 || s.expected == 1 ==>
      (e == 1 <==> s.expected == 1 && Classify(w, s.x, s.y, s.z) == 0) &&
      (e == -1 <==> s.expected == 0 && Classify(w, s.x, s.y, s.z) == 1)
  {
    s.expected - Classify(w, s.x, s.y, s.z)
  }

  /** The perceptron learning rule applied to one point. */
  function Step(w: Weights, s: Sample): (r: Weights)
    ensures LocalError(w, s) == 0 ==> r == w
  {
    var e := LocalError(w, s) as real;
    Weights(w.wx + LearningRate * e * s.x,
            w.wy + LearningRate * e * s.y,
            w.wz + LearningRate * e * s.z,
            w.bias + LearningRate * e)
  }

  /** A misclassified point's weighted sum moves towards its label: up when it
      should be class 1, down when it should be class 0. */
  lemma StepMovesTowardLabel(w: Weights, s: Sample)
    ensures var e := LocalError(w, s) as real;
      WeightedSum(Step(w, s), s.x, s.y, s.z) - WeightedSum(w, s.x, s.y, s.z)
        == LearningRate * e * (s.x * s.x + s.y * s.y + s.z * s.z + 1.0)
    ensures LocalError(w, s) > 0 ==> WeightedSum(Step(w, s), s.x, s.y, s.z) > WeightedSum(w, s.x, s.y, s.z)
    ensures LocalError(w, s) < 0 ==> WeightedSum(Step(w, s), s.x, s.y, s.z) < WeightedSum(w, s.x, s.y, s.z)
  {
  }

  // ---------------------------------------------------------------------------
  // One epoch: a pass over the first k points, the weights changing as it goes
  // ---------------------------------------------------------------------------

  /** The weights after the first k points of the pass, each point updated by
      `Step` from the weights the point before it left; the pass starts from
      the given weights. `EpochWeightsUnchanged` states when a pass leaves
      them as they were. */
  function EpochWeights(w: Weights, ss: seq<Sample>, k: nat): (r: Weights)
    requires k <= |ss|
    ensures k == 0 ==> r == w
  {
    if k == 0 then w else Step(EpochWeights(w, ss, k - 1), ss[k - 1])
  }

  /** A pass over points that the starting weights all classify as their
      labels never moves the weights: every intermediate weight vector is the
      starting one. */
  lemma {:induction false} EpochWeightsUnchanged(w: Weights, ss: seq<Sample>, k: nat)
    requires k <= |ss|
    requires forall i :: 0 <= i < k ==> Classify(w, ss[i].x, ss[i].y, ss[i].z) == ss[i].expected
    ensures forall j :: 0 <= j <= k ==> EpochWeights(w, ss, j) == w
  {
    if k > 0 {
      EpochWeightsUnchanged(w, ss, k - 1);
      assert LocalError(EpochWeights(w, ss, k - 1), ss[k - 1]) == 0;
    }
  }

  /** The sum of squared errors over the first k points of the pass. */
  function EpochError(w: Weights, ss: seq<Sample>, k: nat): (e: real)
    requires k <= |ss|
    ensures e >= 0.0
  {
    if k == 0 then 0.0
    else
      var le := LocalError(EpochWeights(w, ss, k - 1), ss[k - 1]) as real;
      EpochError(w, ss, k - 1) + le * le
  }

  /** The number of the first k points that were misclassified when visited. */
  function Mistakes(w: Weights, ss: seq<Sample>, k: nat): (m: nat)
    requires k <= |ss|
    ensures m <= k
  {
    if k == 0 then 0
    else
      var s := ss[k - 1];
      var wrong := Classify(EpochWeights(w, ss, k - 1), s.x, s.y, s.z) != s.expected;
      Mistakes(w, ss, k - 1) + (if wrong then 1 else 0)
  }

  /** With labels in {0, 1}, the squared error of a pass counts its mistakes,
      so it lies between 0 and the number of points. */
  lemma {:induction false} EpochErrorCountsMistakes(w: Weights, ss: seq<Sample>, k: nat)
    requires k <= |ss| && BinaryLabels(ss)
    ensures EpochError(w, ss, k) == Mistakes(w, ss, k) as real
    ensures 0.0 <= EpochError(w, ss, k) <= k as real
  {
    if k > 0 {
      EpochErrorCountsMistakes(w, ss, k - 1);
      var le := LocalError(EpochWeights(w, ss, k - 1), ss[k - 1]);
      assert -1 <= le <= 1;
      assert (le as real) * (le as real) == if le == 0 then 0.0 else 1.0;
    }
  }

  /** A pass has zero error exactly when the weights it starts with classify
      every visited point as its expected; the weights are then left untouched. */
  lemma {:induction false} ZeroEpochError(w: Weights, ss: seq<Sample>, k: nat)
    requires k <= |ss|
    ensures EpochError(w, ss, k) == 0.0 <==>
      forall i :: 0 <= i < k ==> Classify(w, ss[i].x, ss[i].y, ss[i].z) == ss[i].expected
    ensures EpochError(w, ss, k) == 0.0 ==> EpochWeights(w, ss, k) == w
  {
    if k > 0 {
      ZeroEpochError(w, ss, k - 1);
      var le := LocalError(EpochWeights(w, ss, k - 1), ss[k - 1]);
      SquareZero(le);
    }
  }

  lemma SquareZero(e: int)
    ensures (e as real) * (e as real) >= 0.0
    ensures (e as real) * (e as real) == 0.0 <==> e == 0
  {
  }

  // ---------------------------------------------------------------------------
  // The training loop as a recursion over epochs
  // ---------------------------------------------------------------------------

  /** Runs epochs while the last error is non-zero and the epoch count is at
      most IterationLimit. */
  function Training(w: Weights, ss: seq<Sample>, totalError: real, iterationCount: int): (r: Outcome)
    decreases IterationLimit + 1 - iterationCount
    ensures iterationCount <= r.iterationCount
    ensures iterationCount <= IterationLimit + 1 ==> r.iterationCount <= IterationLimit + 1
    ensures r.totalError == 0.0 || r.iterationCount > IterationLimit
    ensures totalError != 0.0 && iterationCount <= IterationLimit ==> r.iterationCount > iterationCount
  {
    if totalError != 0.0 && iterationCount <= IterationLimit then
      Training(EpochWeights(w, ss, |ss|), ss, EpochError(w, ss, |ss|), iterationCount + 1)
    else
      Outcome(w, totalError, iterationCount)
  }

  predicate Separates(w: Weights, ss: seq<Sample>) {
    forall i :: 0 <= i < |ss| ==> Classify(w, ss[i].x, ss[i].y, ss[i].z) == ss[i].expected
  }

  /** When training stops on a zero-error epoch, the final weights classify
      every training point as its label. */
  lemma {:induction false} TrainingConverged(w: Weights, ss: seq<Sample>, totalError: real, iterationCount: int)
    requires totalError == 0.0 ==> Separates(w, ss)
    ensures var r := Training(w, ss, totalError, iterationCount);
      r.totalError == 0.0 ==> Separates(r.weights, ss)
    decreases IterationLimit + 1 - iterationCount
  {
    if totalError != 0.0 && iterationCount <= IterationLimit {
      ZeroEpochError(w, ss, |ss|);
      TrainingConverged(EpochWeights(w, ss, |ss|), ss, EpochError(w, ss, |ss|), iterationCount + 1);
    }
  }

  /** With labels in {0, 1}, the final error is the number of points the last
      epoch misclassified, so it lies between 0 and the size of the set. */
  lemma {:induction false} TrainingErrorBounded(w: Weights, ss: seq<Sample>, totalError: real, iterationCount: int)
    requires BinaryLabels(ss)
    requires (0.0 <= totalError <= |ss| as real) || (totalError != 0.0 && iterationCount <= IterationLimit)
    ensures var r := Training(w, ss, totalError, iterationCount);
      0.0 <= r.totalError <= |ss| as real
    decreases IterationLimit + 1 - iterationCount
  {
    if totalError != 0.0 && iterationCount <= IterationLimit {
      EpochErrorCountsMistakes(w, ss, |ss|);
      TrainingErrorBounded(EpochWeights(w, ss, |ss|), ss, EpochError(w, ss, |ss|), iterationCount + 1);
    }
  }

  // ---------------------------------------------------------------------------
  // The generated training set
  // ---------------------------------------------------------------------------

  /** Point i of the training set: the first half is class 1, the rest class 0. */
  function TrainingSample(draws: seq<real>, i: nat): (s: Sample)
    requires i < TrainingDataSize && TrainingDraws <= |draws|
    ensures s.expected == 0 || s.expected == 1
    ensures s.expected == 1 <==> i < TrainingDataSize / 2
    ensures UnitDraws(draws) && s.expected == 1 ==>
      2.0 <= s.x < 10.0 && 4.0 <= s.y < 8.0 && 3.0 <= s.z < 9.0
    ensures UnitDraws(draws) && s.expected == 0 ==>
      -10.0 <= s.x < 5.0 && -3.0 <= s.y < 4.0 && -7.0 <= s.z < 2.0
  {
    if i < TrainingDataSize / 2 then
      Sample(GenerateRandomDouble(2, 10, draws[3 * i]),
             GenerateRandomDouble(4, 8, draws[3 * i + 1]),
             GenerateRandomDouble(3, 9, draws[3 * i + 2]),
             1)
    else
      Sample(GenerateRandomDouble(-10, 5, draws[3 * i]),
             GenerateRandomDouble(-3, 4, draws[3 * i + 1]),
             GenerateRandomDouble(-7, 2, draws[3 * i + 2]),
             0)
  }

  function TrainingSet(draws: seq<real>): (ss: seq<Sample>)
    requires TrainingDraws <= |draws|
    ensures |ss| == TrainingDataSize
    ensures BinaryLabels(ss)
  {
    seq(TrainingDataSize, i requires 0 <= i < TrainingDataSize => TrainingSample(draws, i))
  }

  /** The weights drawn before training starts, each in [0, 1). */
  function InitialWeights(draws: seq<real>): (w: Weights)
    requires SetupDraws <= |draws|
    ensures UnitDraws(draws) ==>
      0.0 <= w.wx < 1.0 && 0.0 <= w.wy < 1.0 && 0.0 <= w.wz < 1.0 && 0.0 <= w.bias < 1.0
  {
    Weights(GenerateRandomDouble(0, 1, draws[TrainingDraws]),
            GenerateRandomDouble(0, 1, draws[TrainingDraws + 1]),
            GenerateRandomDouble(0, 1, draws[TrainingDraws + 2]),
            GenerateRandomDouble(0, 1, draws[TrainingDraws + 3]))
  }

  /** The plane y = 4: the y-ranges of the two classes do not overlap. */
  const SeparatingPlane: Weights := Weights(0.0, 1.0, 0.0, -4.0)

  /** Every generated training set is linearly separable. */
  lemma TrainingSetSeparable(draws: seq<real>)
    requires TrainingDraws <= |draws| && UnitDraws(draws)
    ensures exists w :: Separates(w, TrainingSet(draws))
  {
    var ss := TrainingSet(draws);
    forall i | 0 <= i < |ss|
      ensures Classify(SeparatingPlane, ss[i].x, ss[i].y, ss[i].z) == ss[i].expected
    {
      assert ss[i] == TrainingSample(draws, i);
      assert WeightedSum(SeparatingPlane, ss[i].x, ss[i].y, ss[i].z) == ss[i].y - 4.0;
    }
    assert Separates(SeparatingPlane, ss);
  }

  // ---------------------------------------------------------------------------
  // The program's steps, on arrays
  // ---------------------------------------------------------------------------

  /** Fills the four parallel arrays: class 1 in the first half, class 0 in
      the second, three draws per point. */
  method GenerateTrainingData(draws: seq<real>)
    returns (x: array<real>, y: array<real>, z: array<real>, outputClasses: array<int>)
    requires TrainingDraws <= |draws|
    ensures fresh(x) && fresh(y) && fresh(z) && fresh(outputClasses)
    ensures x.Length == TrainingDataSize && y.Length == TrainingDataSize
    ensures z.Length == TrainingDataSize && outputClasses.Length == TrainingDataSize
    ensures Samples(x[..], y[..], z[..], outputClasses[..]) == TrainingSet(draws)
  {
    x := new real[TrainingDataSize];
    y := new real[TrainingDataSize];
    z := new real[TrainingDataSize];
    outputClasses := new int[TrainingDataSize];

    for i := 0 to TrainingDataSize / 2
      invariant forall j :: 0 <= j < i ==>
        Sample(x[j], y[j], z[j], outputClasses[j]) == TrainingSample(draws, j)
    {
      x[i] := GenerateRandomDouble(2, 10, draws[3 * i]);
      y[i] := GenerateRandomDouble(4, 8, draws[3 * i + 1]);
      z[i] := GenerateRandomDouble(3, 9, draws[3 * i + 2]);
      outputClasses[i] := 1;
    }

    for i := TrainingDataSize / 2 to TrainingDataSize
      invariant forall j :: 0 <= j < i ==>
        Sample(x[j], y[j], z[j], outputClasses[j]) == TrainingSample(draws, j)
    {
      x[i] := GenerateRandomDouble(-10, 5, draws[3 * i]);
      y[i] := GenerateRandomDouble(-3, 4, draws[3 * i + 1]);
      z[i] := GenerateRandomDouble(-7, 2, draws[3 * i + 2]);
      outputClasses[i] := 0;
    }

    assert forall j :: 0 <= j < TrainingDataSize ==>
      Samples(x[..], y[..], z[..], outputClasses[..])[j] == TrainingSet(draws)[j];
  }

  /** Draws the three feature weights and the bias, each in [0, 1). */
  method InitWeights(draws: seq<real>) returns (weights: array<real>)
    requires SetupDraws <= |draws|
    ensures fresh(weights) && weights.Length == 4
    ensures AsWeights(weights[..]) == InitialWeights(draws)
  {
    weights := new real[4];
    weights[0] := GenerateRandomDouble(0, 1, draws[TrainingDraws]);
    weights[1] := GenerateRandomDouble(0, 1, draws[TrainingDraws + 1]);
    weights[2] := GenerateRandomDouble(0, 1, draws[TrainingDraws + 2]);
    weights[3] := GenerateRandomDouble(0, 1, draws[TrainingDraws + 3]);
  }

  /** The body of the epoch loop for one point: the summation, the threshold,
      the error, and the in-place update of the four weights. */
  method TrainPoint(weights: array<real>, x: real, y: real, z: real, outputClass: int)
    returns (localError: real)
    requires weights.Length == 4
    modifies weights
    ensures localError == LocalError(AsWeights(old(weights[..])), Sample(x, y, z, outputClass)) as real
    ensures AsWeights(weights[..]) == Step(AsWeights(old(weights[..])), Sample(x, y, z, outputClass))
    ensures weights[0] == old(weights[0]) + LearningRate * localError * x
    ensures weights[1] == old(weights[1]) + LearningRate * localError * y
    ensures weights[2] == old(weights[2]) + LearningRate * localError * z
    ensures weights[3] == old(weights[3]) + LearningRate * localError
  {
    ghost var before := AsWeights(weights[..]);
    assert before == Weights(weights[0], weights[1], weights[2], weights[3]);
    var sum := x * weights[0] + y * weights[1] + z * weights[2] + weights[3];
    var predicted := if sum >= Theta as real then 1 else 0;

    localError := (outputClass - predicted) as real;
    UpdateMatchesStep(before, Sample(x, y, z, outputClass), sum, localError);
    weights[0] := weights[0] + LearningRate * localError * x;
    weights[1] := weights[1] + LearningRate * localError * y;
    weights[2] := weights[2] + LearningRate * localError * z;
    weights[3] := weights[3] + LearningRate * localError;
  }

  /** The inline summation, threshold, error and update of the training loop
      compute Classify, LocalError and Step. */
  lemma UpdateMatchesStep(w: Weights, s: Sample, sum: real, localError: real)
    requires sum == s.x * w.wx + s.y * w.wy + s.z * w.wz + w.bias
    requires localError == (s.expected - if sum >= Theta as real then 1 else 0) as real
    ensures localError == LocalError(w, s) as real
    ensures Step(w, s) == Weights(w.wx + LearningRate * localError * s.x,
                                  w.wy + LearningRate * localError * s.y,
                                  w.wz + LearningRate * localError * s.z,
                                  w.bias + LearningRate * localError)
  {
    var e := LocalError(w, s);
    assert e as real == localError;
    assert Step(w, s).wx == w.wx + LearningRate * localError * s.x;
    assert Step(w, s).wy == w.wy + LearningRate * localError * s.y;
    assert Step(w, s).wz == w.wz + LearningRate * localError * s.z;
    assert Step(w, s).bias == w.bias + LearningRate * localError;
  }

  /** One epoch: classifies each point with the current weights, updates the
      weights in place and returns the sum of squared errors. */
  method TrainEpoch(weights: array<real>, x: array<real>, y: array<real>, z: array<real>,
                    outputClasses: array<int>)
    returns (totalError: real)
    requires weights.Length == 4
    requires x.Length == TrainingDataSize && y.Length == TrainingDataSize
    requires z.Length == TrainingDataSize && outputClasses.Length == TrainingDataSize
    modifies weights
    ensures var ss := Samples(x[..], y[..], z[..], outputClasses[..]);
      AsWeights(weights[..]) == EpochWeights(AsWeights(old(weights[..])), ss, TrainingDataSize) &&
      totalError == EpochError(AsWeights(old(weights[..])), ss, TrainingDataSize)
  {
    ghost var w0 := AsWeights(weights[..]);
    ghost var ss := Samples(x[..], y[..], z[..], outputClasses[..]);
    totalError := 0.0;
    for p := 0 to TrainingDataSize
      invariant AsWeights(weights[..]) == EpochWeights(w0, ss, p)
      invariant totalError == EpochError(w0, ss, p)
    {
      var localError := TrainPoint(weights, x[p], y[p], z[p], outputClasses[p]);
      assert ss[p] == Sample(x[p], y[p], z[p], outputClasses[p]);
      totalError := totalError + localError * localError;
    }
  }

  /** The training loop: epochs until one has zero error or the epoch count
      passes IterationLimit. */
  method Train(weights: array<real>, x: array<real>, y: array<real>, z: array<real>,
               outputClasses: array<int>)
    returns (totalError: real, iterationCount: int)
    requires weights.Length == 4
    requires x.Length == TrainingDataSize && y.Length == TrainingDataSize
    requires z.Length == TrainingDataSize && outputClasses.Length == TrainingDataSize
    modifies weights
    ensures var ss := Samples(x[..], y[..], z[..], outputClasses[..]);
      Outcome(AsWeights(weights[..]), totalError, iterationCount) == Training(AsWeights(old(weights[..])), ss, -1.0, 0)
    ensures 1 <= iterationCount <= IterationLimit + 1
    ensures totalError == 0.0 || iterationCount == IterationLimit + 1
    ensures totalError == 0.0 ==>
      forall p :: 0 <= p < TrainingDataSize ==> Classify(AsWeights(weights[..]), x[p], y[p], z[p]) == outputClasses[p]
  {
    ghost var w0 := AsWeights(weights[..]);
    ghost var ss := Samples(x[..], y[..], z[..], outputClasses[..]);
    iterationCount := 0;
    totalError := -1.0;
    while totalError != 0.0 && iterationCount <= IterationLimit
      invariant 0 <= iterationCount <= IterationLimit + 1
      invariant iterationCount == 0 <==> totalError == -1.0
      invariant Training(AsWeights(weights[..]), ss, totalError, iterationCount) == Training(w0, ss, -1.0, 0)
      decreases IterationLimit + 1 - iterationCount
    {
      iterationCount := iterationCount + 1;
      totalError := TrainEpoch(weights, x, y, z, outputClasses);
    }
    TrainingConverged(w0, ss, -1.0, 0);
    if totalError == 0.0 {
      SeparatesArrays(AsWeights(weights[..]), x[..], y[..], z[..], outputClasses[..]);
    }
  }

  /** Separating the zipped training set is separating the parallel arrays. */
  lemma SeparatesArrays(w: Weights, xs: seq<real>, ys: seq<real>, zs: seq<real>, ls: seq<int>)
    requires |ys| == |xs| && |zs| == |xs| && |ls| == |xs|
    requires Separates(w, Samples(xs, ys, zs, ls))
    ensures forall p :: 0 <= p < |xs| ==> Classify(w, xs[p], ys[p], zs[p]) == ls[p]
  {
    var ss := Samples(xs, ys, zs, ls);
    forall p | 0 <= p < |xs|
      ensures Classify(w, xs[p], ys[p], zs[p]) == ls[p]
    {
      assert ss[p] == Sample(xs[p], ys[p], zs[p], ls[p]);
    }
  }

  /** The program from data generation to the end of training: returns the
      learned weights and the final loop variables. */
  method Run(draws: seq<real>) returns (weights: Weights, totalError: real, iterationCount: int)
    requires SetupDraws <= |draws| && UnitDraws(draws)
    ensures Outcome(weights, totalError, iterationCount)
      == Training(InitialWeights(draws), TrainingSet(draws), -1.0, 0)
    ensures 1 <= iterationCount <= IterationLimit + 1
    ensures totalError == 0.0 || iterationCount == IterationLimit + 1
    ensures 0.0 <= totalError <= TrainingDataSize as real
    ensures totalError == 0.0 ==> Separates(weights, TrainingSet(draws))
    ensures exists w :: Separates(w, TrainingSet(draws))
  {
    var x, y, z, outputClasses := GenerateTrainingData(draws);
    var w := InitWeights(draws);
    totalError, iterationCount := Train(w, x, y, z, outputClasses);
    weights := AsWeights(w[..]);
    TrainingErrorBounded(InitialWeights(draws), TrainingSet(draws), -1.0, 0);
    TrainingConverged(InitialWeights(draws), TrainingSet(draws), -1.0, 0);
    TrainingSetSeparable(draws);
  }
}
