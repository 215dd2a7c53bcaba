/**
 * The fully connected layer of ann.py, as the code builds it: the weight matrix is
 * `[[0] * input_dim] * output_dim`, so every row is the same list object; the
 * forward pass sums over `output_dim` inputs and never reads the biases.
 * `math.exp` is a parameter, assumed only to be positive.
 */
module Ann {

  /** `normalized_sigmoid(x) = 2 / (1 + exp(-x)) - 1`, given the value of exp(-x). */
  function NormalizedSigmoid(expNegX: real): (r: real)
    requires expNegX > 0.0
    ensures -1.0 < r < 1.0
    ensures r == 0.0 <==> expNegX == 1.0
    ensures r > 0.0 <==> expNegX < 1.0
  {
    2.0 / (1.0 + expNegX) - 1.0
  }

  /** What the model relies on about `math.exp`: positive everywhere and 1 at 0. */
  ghost predicate IsExp(exp: real -> real) {
    (forall z :: exp(z) > 0.0) && exp(0.0) == 1.0
  }

  /** The value `random.uniform(lo, hi)` can return: between the two bounds, in either order. */
  predicate Uniform(lo: real, hi: real, d: real) {
    (lo <= hi && lo <= d <= hi) || (hi < lo && hi <= d <= lo)
  }

  /** `sum(input[i] * row[i] for i < n)`, accumulated from index 0 upwards. */
  function Dot(input: seq<real>, row: seq<real>, n: nat): real
    requires n <= |input| && n <= |row|
  {
    if n == 0 then 0.0 else Dot(input, row, n - 1) + input[n - 1] * row[n - 1]
  }

  /** A row that is zero on the first `n` entries contributes nothing to the sum. */
  lemma {:induction false} DotZeroRow(input: seq<real>, row: seq<real>, n: nat)
    requires n <= |input| && n <= |row|
    requires forall i :: 0 <= i < n ==> row[i] == 0.0
    ensures Dot(input, row, n) == 0.0
  {
    if n > 0 {
      DotZeroRow(input, row, n - 1);
    }
  }

  /** The output of one unit: the sigmoid of the dot product of the first `n` inputs and weights. */
  function UnitOutput(exp: real -> real, input: seq<real>, row: seq<real>, n: nat): (r: real)
    requires forall z :: exp(z) > 0.0
    requires n <= |input| && n <= |row|
    ensures -1.0 < r < 1.0
  {
    NormalizedSigmoid(exp(-Dot(input, row, n)))
  }

  /** On an all-zero weight row a unit outputs exactly 0. */
  lemma ZeroRowOutputsZero(exp: real -> real, input: seq<real>, row: seq<real>, n: nat)
    requires IsExp(exp)
    requires n <= |input| && n <= |row|
    requires forall i :: 0 <= i < n ==> row[i] == 0.0
    ensures UnitOutput(exp, input, row, n) == 0.0
  {
    DotZeroRow(input, row, n);
  }

  /** The result of `forward`: the output list, or the IndexError raised by the loop. */
  datatype ForwardResult = Output(values: seq<real>) | IndexError

  class FCLayer {
    const inputDim: nat
    const outputDim: nat
    var weights: seq<array<real>>
    var biases: array<real>

    /** The shape the constructor builds: `output_dim` references to one row of `input_dim` entries. */
    ghost predicate Valid()
      reads this
    {
      |weights| == outputDim && biases.Length == outputDim &&
      (forall o :: 0 <= o < |weights| ==> weights[o] == weights[0]) &&
      (outputDim > 0 ==> weights[0].Length == inputDim && weights[0] != biases)
    }

    constructor (inputDim: nat, outputDim: nat)
      ensures this.inputDim == inputDim && this.outputDim == outputDim
      ensures Valid() && fresh(biases) && forall o :: 0 <= o < outputDim ==> fresh(weights[o])
      ensures forall o, i :: 0 <= o < outputDim && 0 <= i < inputDim ==> weights[o][i] == 0.0
      ensures forall o :: 0 <= o < outputDim ==> biases[o] == 0.0
    {
      this.inputDim := inputDim;
      this.outputDim := outputDim;
      var row := new real[inputDim](_ => 0.0);
      weights := seq(outputDim, _ => row);
      biases := new real[outputDim](_ => 0.0);
    }

    /**
     * `randomize_weights_biases(min, max)`.  `weightDraws[o][i]` is the draw made for
     * `weights[o][i]` and `biasDraws[o]` the one for `biases[o]`.  Since all rows are
     * one list, every row ends up holding the draws of the last row.
     */
    method RandomizeWeightsBiases(lo: real, hi: real, weightDraws: seq<seq<real>>, biasDraws: seq<real>)
      requires Valid()
      requires |weightDraws| == outputDim && |biasDraws| == outputDim
      requires forall o :: 0 <= o < outputDim ==> |weightDraws[o]| == inputDim
      requires forall o, i :: 0 <= o < outputDim && 0 <= i < inputDim ==> Uniform(lo, hi, weightDraws[o][i])
      requires forall o :: 0 <= o < outputDim ==> Uniform(lo, hi, biasDraws[o])
      modifies biases, set o | 0 <= o < |weights| :: weights[o]
      ensures Valid()
      ensures forall o, i :: 0 <= o < outputDim && 0 <= i < inputDim ==>
        weights[o][i] == weightDraws[outputDim - 1][i]
      ensures forall o :: 0 <= o < outputDim ==> biases[o] == biasDraws[o]
      ensures forall o, i :: 0 <= o < outputDim && 0 <= i < inputDim ==> Uniform(lo, hi, weights[o][i])
      ensures forall o, p, i :: 0 <= o < outputDim && 0 <= p < outputDim && 0 <= i < inputDim ==>
        weights[o][i] == weights[p][i]
    {
      var o := 0;
      while o < outputDim
        invariant 0 <= o <= outputDim
        invariant forall q :: 0 <= q < o ==> biases[q] == biasDraws[q]
        invariant o > 0 ==> forall i :: 0 <= i < inputDim ==> weights[0][i] == weightDraws[o - 1][i]
      {
        var i := 0;
        while i < inputDim
          invariant 0 <= i <= inputDim
          invariant forall j :: 0 <= j < i ==> weights[0][j] == weightDraws[o][j]
          invariant forall q :: 0 <= q < o ==> biases[q] == biasDraws[q]
        {
          weights[o][i] := weightDraws[o][i];
          i := i + 1;
        }
        biases[o] := biasDraws[o];
        o := o + 1;
      }
    }

    /**
     * `forward(input)`: for each of the `output_dim` units, the sigmoid of the sum of
     * `input[i] * weights[o][i]` over `i < output_dim`.  That loop raises IndexError when
     * it reaches past the input or past a row.
     */
    method Forward(exp: real -> real, input: seq<real>) returns (r: ForwardResult)
      requires Valid()
      requires forall z :: exp(z) > 0.0
      ensures r.IndexError? <==> outputDim > 0 && (|input| < outputDim || inputDim < outputDim)
      ensures r.Output? ==> |r.values| == outputDim
      ensures r.Output? ==> forall o :: 0 <= o < outputDim ==>
        outputDim <= |input| && outputDim <= weights[o].Length &&
        r.values[o] == UnitOutput(exp, input, weights[o][..], outputDim)
      // the shared row makes every unit compute the same value
      ensures r.Output? ==> forall o :: 0 <= o < outputDim ==> r.values[o] == r.values[0]
    {
      var output: seq<real> := [];
      var o := 0;
      while o < outputDim
        invariant 0 <= o <= outputDim
        invariant o > 0 ==> outputDim <= |input| && outputDim <= inputDim
        invariant |output| == o
        invariant forall q :: 0 <= q < o ==>
          outputDim <= weights[q].Length && output[q] == UnitOutput(exp, input, weights[q][..], outputDim)
      {
        var sum := 0.0;
        var i := 0;
        while i < outputDim
          invariant 0 <= i <= outputDim
          invariant i <= |input| && i <= weights[o].Length
          invariant sum == Dot(input, weights[o][..], i)
        {
          if i >= |input| || i >= weights[o].Length {
            return IndexError;
          }
          sum := sum + input[i] * weights[o][i];
          i := i + 1;
        }
        output := output + [NormalizedSigmoid(exp(-sum))];
        o := o + 1;
      }
      r := Output(output);
    }
  }

  /** `FC_NNLayer(input_dim, output_dim).forward(input)`: a fresh layer outputs only zeros. */
  method FreshLayerForward(inputDim: nat, outputDim: nat, exp: real -> real, input: seq<real>)
    returns (r: ForwardResult)
    requires IsExp(exp)
    ensures r.IndexError? <==> outputDim > 0 && (|input| < outputDim || inputDim < outputDim)
    ensures r.Output? ==> |r.values| == outputDim && forall o :: 0 <= o < outputDim ==> r.values[o] == 0.0
  {
    var layer := new FCLayer(inputDim, outputDim);
    r := layer.Forward(exp, input);
    if r.Output? {
      forall o | 0 <= o < outputDim
        ensures r.values[o] == 0.0
      {
        ZeroRowOutputsZero(exp, input, layer.weights[o][..], outputDim);
      }
    }
  }
}
