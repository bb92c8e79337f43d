/** The neuro-fuzzy controller of js/neural.js: a fully connected network with
    12 fuzzified inputs, `hiddenLayers` ReLU layers of `neuronsPerLayer`
    neurons and 5 softmax outputs, one per output label, trained by gradient
    steps to reproduce the force of the base fuzzy controller. */
module Neural {
  import opened Wrappers
  import opened Utils
  import opened Fuzzy

  /** Four input variables times the labels N, Z and P. */
  const InputCount: nat := 12
  /** One output per output label NB, N, Z, P, PB. */
  const OutputCount: nat := 5

  // ---------------------------------------------------------------------------
  // Network shape and initial weights
  // ---------------------------------------------------------------------------

  /** `weights1` feeds hidden layer 0, `hiddenWeights[k]` feeds hidden layer
      k + 1 from layer k, `weightsOutput` feeds the outputs from the last
      hidden layer; weights are indexed [from][to]. */
  datatype Network = Network(
    weights1: Matrix, biases1: seq<real>,
    hiddenWeights: seq<Matrix>, hiddenBiases: seq<seq<real>>,
    weightsOutput: Matrix, biasesOutput: seq<real>)

  /** The shape initializeNetwork allocates for `hiddenLayers` hidden layers of
      `n` neurons. */
  predicate Shaped(net: Network, hiddenLayers: int, n: nat)
  {
    && HasShape(net.weights1, InputCount, n) && |net.biases1| == n
    && |net.hiddenWeights| == Max0(hiddenLayers - 1) && |net.hiddenBiases| == Max0(hiddenLayers - 1)
    && (forall k :: 0 <= k < |net.hiddenWeights| ==> HasShape(net.hiddenWeights[k], n, n))
    && (forall k :: 0 <= k < |net.hiddenBiases| ==> |net.hiddenBiases[k]| == n)
    && HasShape(net.weightsOutput, n, OutputCount) && |net.biasesOutput| == OutputCount
  }

  /** Math.sqrt behaves as a square root does on positive arguments. */
  ghost predicate PositiveRoot(sqrt: real -> real)
  {
    forall y :: y > 0.0 ==> sqrt(y) > 0.0
  }

  /** The Xavier/Glorot bound sqrt(6 / (inputs + outputs)). */
  function Limit(inputSize: nat, outputSize: nat, sqrt: real -> real): (limit: real)
    requires inputSize + outputSize > 0
    ensures PositiveRoot(sqrt) ==> limit > 0.0
  {
    sqrt(6.0 / ((inputSize + outputSize) as real))
  }

  /** `Math.random() * 2 * limit - limit` lies in [-limit, limit). */
  function Spread(d: Draw, limit: real): (w: real)
    ensures limit > 0.0 ==> -limit <= w < limit
  {
    if limit > 0.0 then
      ScaledDraw(d, 2.0 * limit);
      d * 2.0 * limit - limit
    else d * 2.0 * limit - limit
  }

  /** The matrix initializeWeights(inputSize, outputSize) fills from the draws. */
  function Glorot(inputSize: nat, outputSize: nat, draws: nat -> nat -> Draw, sqrt: real -> real): (w: Matrix)
    ensures HasShape(w, inputSize, outputSize)
  {
    seq(inputSize, i requires 0 <= i < inputSize =>
      seq(outputSize, j requires 0 <= j < outputSize => Spread(draws(i)(j), Limit(inputSize, outputSize, sqrt))))
  }

  /** Every entry lies in [-limit, limit). */
  lemma GlorotBounds(inputSize: nat, outputSize: nat, draws: nat -> nat -> Draw, sqrt: real -> real)
    requires PositiveRoot(sqrt)
    ensures forall i, j :: 0 <= i < inputSize && 0 <= j < outputSize ==>
      -Limit(inputSize, outputSize, sqrt) <= Glorot(inputSize, outputSize, draws, sqrt)[i][j]
        < Limit(inputSize, outputSize, sqrt)
  {
    forall i, j | 0 <= i < inputSize && 0 <= j < outputSize
      ensures -Limit(inputSize, outputSize, sqrt) <= Glorot(inputSize, outputSize, draws, sqrt)[i][j]
        < Limit(inputSize, outputSize, sqrt)
    {
      var limit := Limit(inputSize, outputSize, sqrt);
      assert Glorot(inputSize, outputSize, draws, sqrt)[i][j] == Spread(draws(i)(j), limit);
    }
  }

  /** The loop of initializeWeights. */
  method InitializeWeights(inputSize: nat, outputSize: nat, draws: nat -> nat -> Draw, sqrt: real -> real)
    returns (weights: Matrix)
    ensures weights == Glorot(inputSize, outputSize, draws, sqrt)
  {
    ghost var target := Glorot(inputSize, outputSize, draws, sqrt);
    weights := [];
    for i := 0 to inputSize
      invariant |weights| == i
      invariant forall k :: 0 <= k < i ==> weights[k] == target[k]
    {
      var row := [];
      for j := 0 to outputSize
        invariant |row| == j
        invariant forall m :: 0 <= m < j ==> row[m] == target[i][m]
      {
        var limit := sqrt(6.0 / ((inputSize + outputSize) as real));
        assert target[i][j] == Spread(draws(i)(j), limit);
        row := row + [draws(i)(j) * 2.0 * limit - limit];
      }
      weights := weights + [row];
    }
  }

  /** `new Array(n).fill(0).map(() => Math.random() * 0.2 - 0.1)`. */
  function InitialBiases(n: nat, draws: nat -> Draw): (b: seq<real>)
    ensures |b| == n
    ensures forall j :: 0 <= j < n ==> -0.1 <= b[j] < 0.1
  {
    seq(n, j requires 0 <= j < n => draws(j) * 0.2 - 0.1)
  }

  /** One stream of draws per array initializeNetwork fills. */
  datatype NetworkDraws = NetworkDraws(
    weights1: nat -> nat -> Draw, biases1: nat -> Draw,
    hiddenWeights: nat -> nat -> nat -> Draw, hiddenBiases: nat -> nat -> Draw,
    weightsOutput: nat -> nat -> Draw, biasesOutput: nat -> Draw)

  /** The network initializeNetwork builds. */
  function InitialNetwork(hiddenLayers: int, n: nat, draws: NetworkDraws, sqrt: real -> real): (net: Network)
    ensures Shaped(net, hiddenLayers, n)
  {
    var hiddenWeights := seq(Max0(hiddenLayers - 1), k requires 0 <= k => Glorot(n, n, draws.hiddenWeights(k), sqrt));
    assert forall k :: 0 <= k < |hiddenWeights| ==> hiddenWeights[k] == Glorot(n, n, draws.hiddenWeights(k), sqrt);
    assert forall k :: 0 <= k < |hiddenWeights| ==> HasShape(hiddenWeights[k], n, n);
    var hiddenBiases := seq(Max0(hiddenLayers - 1), k requires 0 <= k => InitialBiases(n, draws.hiddenBiases(k)));
    assert forall k :: 0 <= k < |hiddenBiases| ==> hiddenBiases[k] == InitialBiases(n, draws.hiddenBiases(k));
    assert forall k :: 0 <= k < |hiddenBiases| ==> |hiddenBiases[k]| == n;
    Network(
      Glorot(InputCount, n, draws.weights1, sqrt), InitialBiases(n, draws.biases1),
      hiddenWeights, hiddenBiases,
      Glorot(n, OutputCount, draws.weightsOutput, sqrt), InitialBiases(OutputCount, draws.biasesOutput))
  }

  /** Every initial weight lies within its layer's Glorot bound and every
      initial bias in [-0.1, 0.1). */
  predicate InitialBounds(net: Network, hiddenLayers: int, n: nat, sqrt: real -> real)
    requires Shaped(net, hiddenLayers, n)
  {
    && (forall i, j :: 0 <= i < InputCount && 0 <= j < n ==>
          -Limit(InputCount, n, sqrt) <= net.weights1[i][j] < Limit(InputCount, n, sqrt))
    && (forall j :: 0 <= j < n ==> -0.1 <= net.biases1[j] < 0.1)
    && (forall k, i, j :: 0 <= k < |net.hiddenWeights| && 0 <= i < n && 0 <= j < n ==>
          -Limit(n, n, sqrt) <= net.hiddenWeights[k][i][j] < Limit(n, n, sqrt))
    && (forall k, j :: 0 <= k < |net.hiddenBiases| && 0 <= j < n ==> -0.1 <= net.hiddenBiases[k][j] < 0.1)
    && (forall i, j :: 0 <= i < n && 0 <= j < OutputCount ==>
          -Limit(n, OutputCount, sqrt) <= net.weightsOutput[i][j] < Limit(n, OutputCount, sqrt))
    && (forall j :: 0 <= j < OutputCount ==> -0.1 <= net.biasesOutput[j] < 0.1)
  }

  lemma InitialNetworkBounds(hiddenLayers: int, n: nat, draws: NetworkDraws, sqrt: real -> real)
    requires PositiveRoot(sqrt)
    ensures InitialBounds(InitialNetwork(hiddenLayers, n, draws, sqrt), hiddenLayers, n, sqrt)
  {
    var net := InitialNetwork(hiddenLayers, n, draws, sqrt);
    GlorotBounds(InputCount, n, draws.weights1, sqrt);
    GlorotBounds(n, OutputCount, draws.weightsOutput, sqrt);
    forall k, i, j | 0 <= k < |net.hiddenWeights| && 0 <= i < n && 0 <= j < n
      ensures -Limit(n, n, sqrt) <= net.hiddenWeights[k][i][j] < Limit(n, n, sqrt)
    {
      assert net.hiddenWeights[k] == Glorot(n, n, draws.hiddenWeights(k), sqrt);
      GlorotBounds(n, n, draws.hiddenWeights(k), sqrt);
    }
    forall k, j | 0 <= k < |net.hiddenBiases| && 0 <= j < n
      ensures -0.1 <= net.hiddenBiases[k][j] < 0.1
    {
      assert net.hiddenBiases[k] == InitialBiases(n, draws.hiddenBiases(k));
    }
  }

  // ---------------------------------------------------------------------------
  // Softmax
  // ---------------------------------------------------------------------------

  /** Math.exp is positive everywhere. */
  ghost predicate PositiveExp(exp: real -> real)
  {
    forall x :: exp(x) > 0.0
  }

  /** Math.max(...s) on a non-empty array. */
  function MaxOf(s: seq<real>): (m: real)
    requires |s| > 0
    ensures forall i :: 0 <= i < |s| ==> s[i] <= m
    ensures m in s
  {
    if |s| == 1 then s[0]
    else
      var rest := MaxOf(s[1..]);
      if s[0] > rest then s[0] else rest
  }

  /** Every entry divided by `total`. */
  function Divided(s: seq<real>, total: real): (r: seq<real>)
    requires total != 0.0
    ensures |r| == |s|
    ensures forall i :: 0 <= i < |s| ==> r[i] * total == s[i]
  {
    seq(|s|, i requires 0 <= i < |s| => s[i] / total)
  }

  lemma {:induction false} SumDivided(s: seq<real>, total: real)
    requires total != 0.0
    ensures Sum(Divided(s, total)) == Sum(s) / total
  {
    if |s| > 0 {
      var init := s[..|s| - 1];
      assert Divided(s, total)[..|s| - 1] == Divided(init, total);
      SumDivided(init, total);
    }
  }

  lemma {:induction false} SumPositive(s: seq<real>)
    requires |s| > 0 && forall i :: 0 <= i < |s| ==> s[i] > 0.0
    ensures Sum(s) > 0.0
  {
    if |s| > 1 {
      SumPositive(s[..|s| - 1]);
    }
  }

  /** A positive number divided by itself is 1. */
  lemma OwnRatio(x: real)
    requires x > 0.0
    ensures x / x == 1.0
  {
  }

  /** softmax: exp of the shift by the maximum, divided by the sum of those. */
  function Softmax(arr: seq<real>, exp: real -> real): (r: seq<real>)
    requires PositiveExp(exp)
    ensures |r| == |arr|
    ensures forall i :: 0 <= i < |r| ==> r[i] > 0.0
    ensures |r| > 0 ==> Sum(r) == 1.0
  {
    if |arr| == 0 then []
    else
      var maxVal := MaxOf(arr);
      var expValues := seq(|arr|, i requires 0 <= i < |arr| => exp(arr[i] - maxVal));
      SumPositive(expValues);
      var sumExp := Sum(expValues);
      SumDivided(expValues, sumExp);
      OwnRatio(sumExp);
      Divided(expValues, sumExp)
  }

  // ---------------------------------------------------------------------------
  // Forward pass
  // ---------------------------------------------------------------------------

  /** z[j] = sum over i of input[i] * weights[i][j], plus biases[j]. */
  function Affine(input: seq<real>, weights: Matrix, biases: seq<real>, size: nat): (z: seq<real>)
    requires |input| <= |weights| && size <= |biases|
    requires forall i :: 0 <= i < |input| ==> size <= |weights[i]|
    ensures |z| == size
  {
    seq(size, j requires 0 <= j < size => DotColumn(input, weights, j, |input|) + biases[j])
  }

  /** z.map(relu). */
  function ReluAll(z: seq<real>): (a: seq<real>)
    ensures |a| == |z|
    ensures forall j :: 0 <= j < |a| ==> a[j] >= 0.0 && (a[j] == z[j] || a[j] == 0.0)
  {
    seq(|z|, j requires 0 <= j < |z| => Relu(z[j]))
  }

  /** The weights and biases feeding hidden layer `layer`. */
  function LayerWeights(net: Network, layer: nat): Matrix
    requires layer == 0 || layer - 1 < |net.hiddenWeights|
  {
    if layer == 0 then net.weights1 else net.hiddenWeights[layer - 1]
  }

  function LayerBiases(net: Network, layer: nat): seq<real>
    requires layer == 0 || layer - 1 < |net.hiddenBiases|
  {
    if layer == 0 then net.biases1 else net.hiddenBiases[layer - 1]
  }

  /** The record forwardPass returns. */
  datatype Activations = Activations(
    input: seq<real>, hidden: seq<seq<real>>, preActivationHidden: seq<seq<real>>,
    output: seq<real>, preActivationOutput: seq<real>)

  /** Pre- and post-activation vectors of the first `count` hidden layers. */
  function HiddenPass(net: Network, hiddenLayers: int, n: nat, inputs: seq<real>, count: nat)
    : (layers: (seq<seq<real>>, seq<seq<real>>))
    requires Shaped(net, hiddenLayers, n) && |inputs| == InputCount && count <= Max0(hiddenLayers)
    ensures |layers.0| == count && |layers.1| == count
    ensures forall k :: 0 <= k < count ==> |layers.0[k]| == n && layers.1[k] == ReluAll(layers.0[k])
  {
    if count == 0 then ([], [])
    else
      var previous := HiddenPass(net, hiddenLayers, n, inputs, count - 1);
      var input := if count == 1 then inputs else previous.1[count - 2];
      var z := Affine(input, LayerWeights(net, count - 1), LayerBiases(net, count - 1), n);
      (previous.0 + [z], previous.1 + [ReluAll(z)])
  }

  /** One more hidden layer extends both lists by that layer's vectors. */
  lemma HiddenPassStep(net: Network, hiddenLayers: int, n: nat, inputs: seq<real>, count: nat)
    requires Shaped(net, hiddenLayers, n) && |inputs| == InputCount && count < Max0(hiddenLayers)
    ensures var previous := HiddenPass(net, hiddenLayers, n, inputs, count);
      var input := if count == 0 then inputs else previous.1[count - 1];
      var z := Affine(input, LayerWeights(net, count), LayerBiases(net, count), n);
      HiddenPass(net, hiddenLayers, n, inputs, count + 1) == (previous.0 + [z], previous.1 + [ReluAll(z)])
  {
  }

  /** What forwardPass returns; `None` is the TypeError of reading
      `hidden[-1][i]` when there are no hidden layers but there are neurons. */
  function Forward(net: Network, hiddenLayers: int, n: nat, inputs: seq<real>, exp: real -> real)
    : (a: Option<Activations>)
    requires Shaped(net, hiddenLayers, n) && |inputs| == InputCount && PositiveExp(exp)
    ensures a.None? <==> hiddenLayers <= 0 && n > 0
  {
    var layers := HiddenPass(net, hiddenLayers, n, inputs, Max0(hiddenLayers));
    if hiddenLayers <= 0 && n > 0 then None
    else
      var last := if hiddenLayers > 0 then layers.1[hiddenLayers - 1] else [];
      var z := Affine(last, net.weightsOutput, net.biasesOutput, OutputCount);
      Some(Activations(inputs, layers.1, layers.0, Softmax(z, exp), z))
  }

  /** The shape of a forward pass's record. */
  predicate ActivationsShaped(a: Activations, hiddenLayers: int, n: nat)
  {
    && |a.input| == InputCount
    && |a.hidden| == Max0(hiddenLayers) && |a.preActivationHidden| == Max0(hiddenLayers)
    && (forall k :: 0 <= k < |a.hidden| ==> |a.hidden[k]| == n && |a.preActivationHidden[k]| == n)
    && |a.output| == OutputCount && |a.preActivationOutput| == OutputCount
  }

  /** forwardPass records `hiddenLayers` pre- and post-activation vectors of
      `n` entries, the post-activation values are the non-negative ReLU of
      the pre-activation ones, and the outputs are a probability vector. */
  lemma ForwardShape(net: Network, hiddenLayers: int, n: nat, inputs: seq<real>, exp: real -> real)
    requires Shaped(net, hiddenLayers, n) && |inputs| == InputCount && PositiveExp(exp)
    requires Forward(net, hiddenLayers, n, inputs, exp).Some?
    ensures var a := Forward(net, hiddenLayers, n, inputs, exp).value;
      && ActivationsShaped(a, hiddenLayers, n)
      && a.input == inputs
      && (forall k, j :: 0 <= k < |a.hidden| && 0 <= j < n ==>
            a.hidden[k][j] >= 0.0 && a.hidden[k][j] == Relu(a.preActivationHidden[k][j]))
      && (forall j :: 0 <= j < OutputCount ==> a.output[j] > 0.0)
      && Sum(a.output) == 1.0
  {
    var a := Forward(net, hiddenLayers, n, inputs, exp).value;
    forall k, j | 0 <= k < |a.hidden| && 0 <= j < n
      ensures a.hidden[k][j] >= 0.0 && a.hidden[k][j] == Relu(a.preActivationHidden[k][j])
    {
      assert a.hidden[k] == ReluAll(a.preActivationHidden[k]);
    }
  }

  /** The nested loop filling one layer's z. */
  method LayerSums(input: seq<real>, weights: Matrix, biases: seq<real>, size: nat) returns (z: seq<real>)
    requires |input| <= |weights| && size <= |biases|
    requires forall i :: 0 <= i < |input| ==> size <= |weights[i]|
    ensures z == Affine(input, weights, biases, size)
  {
    ghost var target := Affine(input, weights, biases, size);
    z := [];
    for j := 0 to size
      invariant z == target[..j]
    {
      var sum := 0.0;
      for i := 0 to |input|
        invariant sum == DotColumn(input, weights, j, i)
      {
        sum := sum + input[i] * weights[i][j];
      }
      z := z + [sum + biases[j]];
    }
  }

  /** forwardPass. */
  method ForwardPass(net: Network, hiddenLayers: int, n: nat, inputs: seq<real>, exp: real -> real)
    returns (a: Option<Activations>)
    requires Shaped(net, hiddenLayers, n) && |inputs| == InputCount && PositiveExp(exp)
    ensures a == Forward(net, hiddenLayers, n, inputs, exp)
  {
    var pre: seq<seq<real>> := [];
    var post: seq<seq<real>> := [];
    var current := inputs;
    var layer := 0;
    while layer < hiddenLayers
      invariant 0 <= layer <= Max0(hiddenLayers)
      invariant pre == HiddenPass(net, hiddenLayers, n, inputs, layer).0
      invariant post == HiddenPass(net, hiddenLayers, n, inputs, layer).1
      invariant current == if layer == 0 then inputs else post[layer - 1]
    {
      var weights := if layer == 0 then net.weights1 else net.hiddenWeights[layer - 1];
      var biases := if layer == 0 then net.biases1 else net.hiddenBiases[layer - 1];
      assert weights == LayerWeights(net, layer) && biases == LayerBiases(net, layer);
      var z := LayerSums(current, weights, biases, n);
      var activated := ReluAll(z);
      HiddenPassStep(net, hiddenLayers, n, inputs, layer);
      pre := pre + [z];
      post := post + [activated];
      current := activated;
      layer := layer + 1;
    }
    var last: seq<real>;
    if hiddenLayers > 0 {
      last := post[hiddenLayers - 1];
    } else if n > 0 {
      return None;
    } else {
      last := [];
    }
    var z := LayerSums(last, net.weightsOutput, net.biasesOutput, OutputCount);
    a := Some(Activations(inputs, post, pre, Softmax(z, exp), z));
  }

  // ---------------------------------------------------------------------------
  // Inputs and outputs
  // ---------------------------------------------------------------------------

  /** The degrees of N, Z and P, in that order. */
  function Memberships(value: real, mfs: MembershipSet): (r: seq<real>)
    requires Labels(mfs) == {N, Z, P}
    ensures |r| == 3 && forall m :: 0 <= m < 3 ==> 0.0 <= r[m] <= 1.0
  {
    var d := Fuzzified(value, mfs);
    [d[N], d[Z], d[P]]
  }

  /** prepareInputs: the base controller's fuzzified inputs as one vector. */
  function PrepareInputs(angle: real, angularVelocity: real, position: real, velocity: real): (inputs: seq<real>)
    ensures |inputs| == InputCount
    ensures forall k :: 0 <= k < |inputs| ==> 0.0 <= inputs[k] <= 1.0
  {
    InputLabels();
    Memberships(angle, AngleMF) + Memberships(angularVelocity, AngularVelocityMF)
      + Memberships(position, PositionMF) + Memberships(velocity, VelocityMF)
  }

  /** With the labels in the order N, Z, P, the vector lists each label's own
      function's degree. */
  lemma MembershipsInOrder(value: real, mfs: MembershipSet)
    requires |mfs| == 3 && mfs[0].0 == N && mfs[1].0 == Z && mfs[2].0 == P
    ensures Labels(mfs) == {N, Z, P}
    ensures Memberships(value, mfs) == [Degree(value, mfs[0].1), Degree(value, mfs[1].1), Degree(value, mfs[2].1)]
  {
    ThreeLabels(mfs);
    FuzzifiedThree(value, mfs);
  }

  /** Input 3v + m is the degree of variable v (angle, angular velocity,
      position, velocity) in the membership function of label m (N, Z, P). */
  lemma PreparedInputs(angle: real, angularVelocity: real, position: real, velocity: real)
    ensures PrepareInputs(angle, angularVelocity, position, velocity) == [
      Degree(angle, AngleMF[0].1), Degree(angle, AngleMF[1].1), Degree(angle, AngleMF[2].1),
      Degree(angularVelocity, AngularVelocityMF[0].1), Degree(angularVelocity, AngularVelocityMF[1].1),
      Degree(angularVelocity, AngularVelocityMF[2].1),
      Degree(position, PositionMF[0].1), Degree(position, PositionMF[1].1), Degree(position, PositionMF[2].1),
      Degree(velocity, VelocityMF[0].1), Degree(velocity, VelocityMF[1].1), Degree(velocity, VelocityMF[2].1)]
  {
    MembershipsInOrder(angle, AngleMF);
    MembershipsInOrder(angularVelocity, AngularVelocityMF);
    MembershipsInOrder(position, PositionMF);
    MembershipsInOrder(velocity, VelocityMF);
    InputLabels();
    ConcatenatedTriples(Memberships(angle, AngleMF), Memberships(angularVelocity, AngularVelocityMF),
                        Memberships(position, PositionMF), Memberships(velocity, VelocityMF));
  }

  /** Four vectors of three, joined, list their entries in order. */
  lemma ConcatenatedTriples(a: seq<real>, b: seq<real>, c: seq<real>, d: seq<real>)
    requires |a| == |b| == |c| == |d| == 3
    ensures a + b + c + d == [a[0], a[1], a[2], b[0], b[1], b[2], c[0], c[1], c[2], d[0], d[1], d[2]]
  {
  }

  /** The centres of NB, N, Z, P and PB. */
  const OutputCenters: seq<real> := [-20.0, -10.0, 0.0, 10.0, 20.0]

  /** Sum over i of centre i times weight i, accumulated left to right. */
  function CenterSum(weights: seq<real>): real
    requires |weights| <= |OutputCenters|
  {
    if |weights| == 0 then 0.0
    else CenterSum(weights[..|weights| - 1]) + OutputCenters[|weights| - 1] * weights[|weights| - 1]
  }

  /** defuzzifyOutput: the weighted average of the centres, 0 when the
      weights sum to 0. */
  function Centroid(weights: seq<real>): (force: real)
    requires |weights| <= |OutputCenters|
    ensures Sum(weights) == 0.0 ==> force == 0.0
    ensures Sum(weights) != 0.0 ==> force * Sum(weights) == CenterSum(weights)
  {
    if Sum(weights) == 0.0 then 0.0 else CenterSum(weights) / Sum(weights)
  }

  lemma {:induction false} CenterSumBounds(weights: seq<real>)
    requires |weights| <= |OutputCenters|
    requires forall i :: 0 <= i < |weights| ==> weights[i] >= 0.0
    ensures -20.0 * Sum(weights) <= CenterSum(weights) <= 20.0 * Sum(weights)
  {
    if |weights| > 0 {
      CenterSumBounds(weights[..|weights| - 1]);
    }
  }

  /** With non-negative weights the defuzzified force lies between the
      outermost centres. */
  lemma CentroidBounds(weights: seq<real>)
    requires |weights| <= |OutputCenters|
    requires forall i :: 0 <= i < |weights| ==> weights[i] >= 0.0
    ensures -20.0 <= Centroid(weights) <= 20.0
  {
    CenterSumBounds(weights);
    SumNonNegative(weights);
    if Sum(weights) != 0.0 {
      RatioWithin(CenterSum(weights), Sum(weights), 20.0);
    }
  }

  /** The loop of defuzzifyOutput. */
  method DefuzzifyOutput(outputLayer: seq<real>) returns (force: real)
    requires |outputLayer| <= |OutputCenters|
    ensures force == Centroid(outputLayer)
  {
    var weightedSum := 0.0;
    var sumOfWeights := 0.0;
    for i := 0 to |outputLayer|
      invariant weightedSum == CenterSum(outputLayer[..i])
      invariant sumOfWeights == Sum(outputLayer[..i])
    {
      assert outputLayer[..i + 1][..i] == outputLayer[..i];
      weightedSum := weightedSum + OutputCenters[i] * outputLayer[i];
      sumOfWeights := sumOfWeights + outputLayer[i];
    }
    assert outputLayer[..|outputLayer|] == outputLayer;
    if sumOfWeights == 0.0 {
      return 0.0;
    }
    force := weightedSum / sumOfWeights;
  }

  // ---------------------------------------------------------------------------
  // Target vectors
  // ---------------------------------------------------------------------------

  /** How far the force is from centre j: never negative, and 0 exactly at
      the centre. */
  function Distance(force: real, j: nat): (d: real)
    requires j < |OutputCenters|
    ensures d >= 0.0 && (d == 0.0 <==> force == OutputCenters[j])
  {
    Abs(force - OutputCenters[j])
  }

  /** The two-nearest-centres scan's variables; `None` stands for Infinity. */
  datatype Nearest = Nearest(minDist1: Option<real>, minIndex1: int, minDist2: Option<real>, minIndex2: int)

  /** `dist < best` with Infinity as `None`. */
  predicate Closer(dist: real, best: Option<real>)
  {
    best.None? || dist < best.value
  }

  /** The scan after visiting centres 0 .. count - 1. */
  function Scanned(force: real, count: nat): (s: Nearest)
    requires count <= |OutputCenters|
    ensures -1 <= s.minIndex1 < count && -1 <= s.minIndex2 < count
    ensures s.minIndex1 == -1 <==> count == 0
    ensures s.minIndex2 == -1 <==> count <= 1
    ensures s.minIndex1 == -1 ==> s.minDist1.None?
    ensures s.minIndex2 == -1 ==> s.minDist2.None?
    ensures s.minIndex1 != -1 ==> s.minDist1 == Some(Distance(force, s.minIndex1))
    ensures s.minIndex2 != -1 ==> s.minDist2 == Some(Distance(force, s.minIndex2)) && s.minIndex2 != s.minIndex1
  {
    if count == 0 then Nearest(None, -1, None, -1)
    else
      var previous := Scanned(force, count - 1);
      var dist := Distance(force, count - 1);
      if Closer(dist, previous.minDist1) then Nearest(Some(dist), count - 1, previous.minDist1, previous.minIndex1)
      else if Closer(dist, previous.minDist2) then previous.(minDist2 := Some(dist), minIndex2 := count - 1)
      else previous
  }

  /** The scan finds a nearest centre, and a nearest one among the others. */
  lemma {:induction false} ScannedNearest(force: real, count: nat)
    requires count <= |OutputCenters|
    ensures var s := Scanned(force, count);
      forall j :: 0 <= j < count ==>
        && Distance(force, s.minIndex1) <= Distance(force, j)
        && (j != s.minIndex1 ==> Distance(force, s.minIndex2) <= Distance(force, j))
  {
    if count > 0 {
      ScannedNearest(force, count - 1);
    }
  }

  const NoWeights: seq<real> := [0.0, 0.0, 0.0, 0.0, 0.0]

  /** desiredOutput after the interpolation step, before normalisation. */
  function Interpolated(force: real, s: Nearest): (desired: seq<real>)
    requires -1 <= s.minIndex1 < |OutputCenters| && -1 <= s.minIndex2 < |OutputCenters|
    ensures |desired| == OutputCount
  {
    if s.minIndex1 != -1 && s.minIndex2 != -1 then
      var center1 := OutputCenters[s.minIndex1];
      var center2 := OutputCenters[s.minIndex2];
      var totalDist := Abs(center1 - center2);
      if totalDist > 0.000001 then
        NoWeights[s.minIndex1 := Abs(force - center2) / totalDist][s.minIndex2 := Abs(force - center1) / totalDist]
      else NoWeights[s.minIndex1 := 1.0]
    else if s.minIndex1 != -1 then NoWeights[s.minIndex1 := 1.0]
    else NoWeights
  }

  /** The normalisation step: divide by the sum when it exceeds 1e-6. */
  function Normalized(desired: seq<real>, minIndex1: int): (r: seq<real>)
    requires -1 <= minIndex1 < |desired|
    ensures |r| == |desired|
  {
    var sumDesired := Sum(desired);
    if sumDesired > 0.000001 then Divided(desired, sumDesired)
    else if minIndex1 != -1 then desired[minIndex1 := 1.0]
    else desired
  }

  /** The desired output generateTrainingData builds for a control force. */
  function TargetVector(force: real): (desired: seq<real>)
    ensures |desired| == OutputCount
  {
    var s := Scanned(force, |OutputCenters|);
    Normalized(Interpolated(force, s), s.minIndex1)
  }

  lemma {:induction false} SumUpdate(s: seq<real>, i: nat, v: real)
    requires i < |s|
    ensures Sum(s[i := v]) == Sum(s) - s[i] + v
  {
    var last := |s| - 1;
    assert s[i := v][..last] == if i < last then s[..last][i := v] else s[..last];
    if i < last {
      SumUpdate(s[..last], i, v);
    }
  }

  lemma {:induction false} CenterSumUpdate(s: seq<real>, i: nat, v: real)
    requires i < |s| <= |OutputCenters|
    ensures CenterSum(s[i := v]) == CenterSum(s) + OutputCenters[i] * (v - s[i])
  {
    var last := |s| - 1;
    assert s[i := v][..last] == if i < last then s[..last][i := v] else s[..last];
    if i < last {
      CenterSumUpdate(s[..last], i, v);
    }
  }

  lemma NoWeightsSums()
    ensures Sum(NoWeights) == 0.0 && CenterSum(NoWeights) == 0.0
  {
    SumBounds(NoWeights, 0.0, 0.0);
    CenterSumBounds(NoWeights);
  }

  /** Two different centres are at least 10 apart. */
  lemma CentersApart(i: nat, j: nat)
    requires i < |OutputCenters| && j < |OutputCenters| && i != j
    ensures Abs(OutputCenters[i] - OutputCenters[j]) >= 10.0
  {
  }

  /** Normalising a vector whose sum exceeds 1e-6 gives a vector summing to
      1 with the same signs and the same zero entries. */
  lemma NormalizedShape(desired: seq<real>, minIndex1: int)
    requires -1 <= minIndex1 < |desired|
    requires Sum(desired) > 0.000001
    ensures var r := Normalized(desired, minIndex1);
      && Sum(r) == 1.0
      && (forall j :: 0 <= j < |r| && desired[j] >= 0.0 ==> r[j] >= 0.0)
      && (forall j :: 0 <= j < |r| && desired[j] == 0.0 ==> r[j] == 0.0)
  {
    var total := Sum(desired);
    SumDivided(desired, total);
    OwnRatio(total);
  }

  /** The interpolation weights |F - c2| / |c1 - c2| and |F - c1| / |c1 - c2|
      are non-negative and add up to at least 1. */
  lemma InterpolationWeights(force: real, center1: real, center2: real)
    requires Abs(center1 - center2) > 0.0
    ensures var totalDist := Abs(center1 - center2);
      && Abs(force - center2) / totalDist >= 0.0
      && Abs(force - center1) / totalDist >= 0.0
      && Abs(force - center2) / totalDist + Abs(force - center1) / totalDist >= 1.0
  {
    var totalDist := Abs(center1 - center2);
    var sum := Abs(force - center2) + Abs(force - center1);
    assert sum >= totalDist;
    assert Abs(force - center2) / totalDist + Abs(force - center1) / totalDist == sum / totalDist;
    RatioAtLeastOne(sum, totalDist);
  }

  lemma RatioAtLeastOne(x: real, total: real)
    requires total > 0.0 && x >= total
    ensures x / total >= 1.0
  {
    assert (x / total) * total == x;
  }

  /** The target is a probability vector that is non-zero only at the two
      nearest centres the scan found. */
  lemma TargetShape(force: real)
    ensures var s := Scanned(force, |OutputCenters|);
      var t := TargetVector(force);
      && Sum(t) == 1.0
      && (forall j :: 0 <= j < OutputCount ==> t[j] >= 0.0)
      && (forall j :: 0 <= j < OutputCount && t[j] != 0.0 ==> j == s.minIndex1 || j == s.minIndex2)
  {
    var s := Scanned(force, |OutputCenters|);
    PairShape(force, s);
  }

  /** Interpolating between two different centres, then normalising, gives a
      probability vector that is non-zero only at those two centres. */
  lemma PairShape(force: real, s: Nearest)
    requires 0 <= s.minIndex1 < |OutputCenters| && 0 <= s.minIndex2 < |OutputCenters|
    requires s.minIndex1 != s.minIndex2
    ensures var t := Normalized(Interpolated(force, s), s.minIndex1);
      && Sum(t) == 1.0
      && (forall j :: 0 <= j < OutputCount ==> t[j] >= 0.0)
      && (forall j :: 0 <= j < OutputCount && t[j] != 0.0 ==> j == s.minIndex1 || j == s.minIndex2)
  {
    var i1, i2 := s.minIndex1, s.minIndex2;
    var center1, center2 := OutputCenters[i1], OutputCenters[i2];
    var totalDist := Abs(center1 - center2);
    CentersApart(i1, i2);
    InterpolationWeights(force, center1, center2);
    var w1, w2 := Abs(force - center2) / totalDist, Abs(force - center1) / totalDist;
    var desired := Interpolated(force, s);
    assert desired == NoWeights[i1 := w1][i2 := w2];
    NoWeightsSums();
    SumUpdate(NoWeights, i1, w1);
    SumUpdate(NoWeights[i1 := w1], i2, w2);
    NormalizedShape(desired, i1);
  }

  /** For a force between the outermost centres the two nearest centres are
      neighbours and the force lies between them. */
  lemma NearestBracket(force: real)
    requires -20.0 <= force <= 20.0
    ensures var s := Scanned(force, |OutputCenters|);
      var center1, center2 := OutputCenters[s.minIndex1], OutputCenters[s.minIndex2];
      Abs(center1 - center2) == 10.0 && Abs(force - center1) + Abs(force - center2) == 10.0
  {
    ScannedNearest(force, |OutputCenters|);
    var s := Scanned(force, |OutputCenters|);
    NearestTwoAdjacent(force, s.minIndex1, s.minIndex2);
  }

  /** A nearest centre and a nearest one among the others, for a force
      between the outermost centres, are neighbours enclosing the force. */
  lemma NearestTwoAdjacent(force: real, i1: nat, i2: nat)
    requires -20.0 <= force <= 20.0
    requires i1 < |OutputCenters| && i2 < |OutputCenters| && i1 != i2
    requires forall j :: 0 <= j < |OutputCenters| ==>
      Distance(force, i1) <= Distance(force, j) && (j != i1 ==> Distance(force, i2) <= Distance(force, j))
    ensures Abs(OutputCenters[i1] - OutputCenters[i2]) == 10.0
    ensures Abs(force - OutputCenters[i1]) + Abs(force - OutputCenters[i2]) == 10.0
  {
    assert Distance(force, 0) == Abs(force + 20.0);
    assert Distance(force, 1) == Abs(force + 10.0);
    assert Distance(force, 2) == Abs(force);
    assert Distance(force, 3) == Abs(force - 10.0);
    assert Distance(force, 4) == Abs(force - 20.0);
  }

  /** Linear interpolation between neighbouring centres reproduces the force. */
  lemma InterpolationRoundTrip(force: real, center1: real, center2: real)
    requires Abs(center1 - center2) == 10.0 && Abs(force - center1) + Abs(force - center2) == 10.0
    ensures Abs(force - center2) / 10.0 + Abs(force - center1) / 10.0 == 1.0
    ensures center1 * (Abs(force - center2) / 10.0) + center2 * (Abs(force - center1) / 10.0) == force
  {
  }

  /** A vector with weights at two different centres only. */
  lemma TwoWeights(i1: nat, i2: nat, w1: real, w2: real)
    requires i1 < |OutputCenters| && i2 < |OutputCenters| && i1 != i2
    ensures Sum(NoWeights[i1 := w1][i2 := w2]) == w1 + w2
    ensures CenterSum(NoWeights[i1 := w1][i2 := w2]) == OutputCenters[i1] * w1 + OutputCenters[i2] * w2
  {
    NoWeightsSums();
    SumUpdate(NoWeights, i1, w1);
    SumUpdate(NoWeights[i1 := w1], i2, w2);
    CenterSumUpdate(NoWeights, i1, w1);
    CenterSumUpdate(NoWeights[i1 := w1], i2, w2);
  }

  /** Dividing by 1 changes nothing. */
  lemma DividedByOne(s: seq<real>)
    ensures Divided(s, 1.0) == s
  {
  }

  /** Interpolating between two neighbouring centres that enclose the force,
      then normalising, encodes the force. */
  lemma PairRoundTrip(force: real, s: Nearest)
    requires 0 <= s.minIndex1 < |OutputCenters| && 0 <= s.minIndex2 < |OutputCenters|
    requires var center1, center2 := OutputCenters[s.minIndex1], OutputCenters[s.minIndex2];
      Abs(center1 - center2) == 10.0 && Abs(force - center1) + Abs(force - center2) == 10.0
    ensures Centroid(Normalized(Interpolated(force, s), s.minIndex1)) == force
  {
    var i1, i2 := s.minIndex1, s.minIndex2;
    var center1, center2 := OutputCenters[i1], OutputCenters[i2];
    InterpolationRoundTrip(force, center1, center2);
    InterpolatedPair(force, s);
    TwoWeights(i1, i2, Abs(force - center2) / 10.0, Abs(force - center1) / 10.0);
    NormalizedProbability(Interpolated(force, s), i1);
  }

  /** The interpolation step for two centres 10 apart. */
  lemma InterpolatedPair(force: real, s: Nearest)
    requires 0 <= s.minIndex1 < |OutputCenters| && 0 <= s.minIndex2 < |OutputCenters|
    requires Abs(OutputCenters[s.minIndex1] - OutputCenters[s.minIndex2]) == 10.0
    ensures var center1, center2 := OutputCenters[s.minIndex1], OutputCenters[s.minIndex2];
      Interpolated(force, s) ==
        NoWeights[s.minIndex1 := Abs(force - center2) / 10.0][s.minIndex2 := Abs(force - center1) / 10.0]
  {
  }

  /** A vector summing to 1 is left as it is by the normalisation, and its
      centroid is its weighted sum of the centres. */
  lemma NormalizedProbability(desired: seq<real>, minIndex1: int)
    requires -1 <= minIndex1 < |desired| <= |OutputCenters| && Sum(desired) == 1.0
    ensures Normalized(desired, minIndex1) == desired
    ensures Centroid(desired) == CenterSum(desired)
  {
    DividedByOne(desired);
  }

  /** The target vector encodes the force it was built from: defuzzifying it
      gives the force back, for every force the base controller can produce. */
  lemma TargetRoundTrip(force: real)
    requires -20.0 <= force <= 20.0
    ensures Centroid(TargetVector(force)) == force
  {
    NearestBracket(force);
    PairRoundTrip(force, Scanned(force, |OutputCenters|));
  }

  /** The scan of generateTrainingData for the two nearest centres. */
  method NearestCenters(controlForce: real)
    returns (minDist1: Option<real>, minIndex1: int, minDist2: Option<real>, minIndex2: int)
    ensures Nearest(minDist1, minIndex1, minDist2, minIndex2) == Scanned(controlForce, |OutputCenters|)
  {
    minDist1, minDist2 := None, None;
    minIndex1, minIndex2 := -1, -1;
    for j := 0 to |OutputCenters|
      invariant Nearest(minDist1, minIndex1, minDist2, minIndex2) == Scanned(controlForce, j)
    {
      var dist := Abs(controlForce - OutputCenters[j]);
      if Closer(dist, minDist1) {
        minDist2 := minDist1;
        minIndex2 := minIndex1;
        minDist1 := Some(dist);
        minIndex1 := j;
      } else if Closer(dist, minDist2) {
        minDist2 := Some(dist);
        minIndex2 := j;
      }
    }
  }

  /** The normalisation of generateTrainingData. */
  method Normalize(desired: seq<real>, minIndex1: int) returns (desiredOutput: seq<real>)
    requires -1 <= minIndex1 < |desired|
    ensures desiredOutput == Normalized(desired, minIndex1)
  {
    desiredOutput := desired;
    var sumDesired := Sum(desiredOutput);
    if sumDesired > 0.000001 {
      for j := 0 to |desiredOutput|
        invariant |desiredOutput| == |desired|
        invariant forall k :: 0 <= k < j ==> desiredOutput[k] == desired[k] / sumDesired
        invariant forall k :: j <= k < |desiredOutput| ==> desiredOutput[k] == desired[k]
      {
        desiredOutput := desiredOutput[j := desiredOutput[j] / sumDesired];
      }
    } else if minIndex1 != -1 {
      desiredOutput := desiredOutput[minIndex1 := 1.0];
    }
  }

  /** The target-vector code of generateTrainingData: the scan, the
      interpolation between the two centres it found, the normalisation. */
  method BuildTarget(controlForce: real) returns (desiredOutput: seq<real>)
    ensures desiredOutput == TargetVector(controlForce)
  {
    var minDist1, minIndex1, minDist2, minIndex2 := NearestCenters(controlForce);
    desiredOutput := NoWeights;
    if minIndex1 != -1 && minIndex2 != -1 {
      var center1 := OutputCenters[minIndex1];
      var center2 := OutputCenters[minIndex2];
      var totalDist := Abs(center1 - center2);
      if totalDist > 0.000001 {
        desiredOutput := desiredOutput[minIndex1 := Abs(controlForce - center2) / totalDist];
        desiredOutput := desiredOutput[minIndex2 := Abs(controlForce - center1) / totalDist];
      } else {
        desiredOutput := desiredOutput[minIndex1 := 1.0];
      }
    } else if minIndex1 != -1 {
      // A single centre found: unreachable, the scan visits five centres.
      assert false;
    }
    assert desiredOutput == Interpolated(controlForce, Nearest(minDist1, minIndex1, minDist2, minIndex2));
    desiredOutput := Normalize(desiredOutput, minIndex1);
  }

  /** One training sample: the fuzzified inputs and the desired outputs. */
  datatype Sample = Sample(inputs: seq<real>, desiredOutput: seq<real>)

  /** The four utils.random draws of one sample. */
  datatype SampleDraws = SampleDraws(angle: Draw, angularVelocity: Draw, position: Draw, velocity: Draw)

  /** The sample generateTrainingData builds from one set of draws: a random
      state, the fuzzified state, and the target vector of the base
      controller's force in that state. */
  function SampleFrom(d: SampleDraws): (sample: Sample)
    ensures |sample.inputs| == InputCount && |sample.desiredOutput| == OutputCount
  {
    var angle := Random(-30.0, 30.0, d.angle);
    var angularVelocity := Random(-20.0, 20.0, d.angularVelocity);
    var position := Random(-3.0, 3.0, d.position);
    var velocity := Random(-3.0, 3.0, d.velocity);
    var controlForce := ControlForce(angle, angularVelocity, position, velocity);
    Sample(PrepareInputs(angle, angularVelocity, position, velocity), TargetVector(controlForce))
  }

  /** What the network is taught: defuzzifying a sample's desired output gives
      the base controller's force for the sample's state. */
  lemma SampleTeachesBaseController(d: SampleDraws)
    ensures var angle := Random(-30.0, 30.0, d.angle);
      var angularVelocity := Random(-20.0, 20.0, d.angularVelocity);
      var position := Random(-3.0, 3.0, d.position);
      var velocity := Random(-3.0, 3.0, d.velocity);
      Centroid(SampleFrom(d).desiredOutput) == ControlForce(angle, angularVelocity, position, velocity)
  {
    var angle := Random(-30.0, 30.0, d.angle);
    var angularVelocity := Random(-20.0, 20.0, d.angularVelocity);
    var position := Random(-3.0, 3.0, d.position);
    var velocity := Random(-3.0, 3.0, d.velocity);
    TargetRoundTrip(ControlForce(angle, angularVelocity, position, velocity));
  }

  /** One iteration of generateTrainingData's loop. */
  method MakeSample(d: SampleDraws) returns (sample: Sample)
    ensures sample == SampleFrom(d)
  {
    var initialAngle := Random(-30.0, 30.0, d.angle);
    var initialAngularVelocity := Random(-20.0, 20.0, d.angularVelocity);
    var initialPosition := Random(-3.0, 3.0, d.position);
    var initialVelocity := Random(-3.0, 3.0, d.velocity);
    var controlForce := Fuzzy.CalculateControlForce(initialAngle, initialAngularVelocity, initialPosition, initialVelocity);
    var inputs := PrepareInputs(initialAngle, initialAngularVelocity, initialPosition, initialVelocity);
    var desiredOutput := BuildTarget(controlForce);
    sample := Sample(inputs, desiredOutput);
  }

  /** generateTrainingData(numSamples). */
  method GenerateTrainingData(numSamples: nat, draws: nat -> SampleDraws) returns (trainingData: seq<Sample>)
    ensures |trainingData| == numSamples
    ensures forall i :: 0 <= i < numSamples ==> trainingData[i] == SampleFrom(draws(i))
  {
    hide SampleFrom;
    trainingData := [];
    for i := 0 to numSamples
      invariant |trainingData| == i
      invariant forall k :: 0 <= k < i ==> trainingData[k] == SampleFrom(draws(k))
    {
      var sample := MakeSample(draws(i));
      trainingData := trainingData + [sample];
    }
  }

  // ---------------------------------------------------------------------------
  // One training step
  // ---------------------------------------------------------------------------

  /** A sample of the shape generateTrainingData produces. */
  predicate SampleShaped(sample: Sample)
  {
    |sample.inputs| == InputCount && |sample.desiredOutput| == OutputCount
  }

  /** Sum over k < m of a[k] * b[k], accumulated left to right. */
  function Dot(a: seq<real>, b: seq<real>, m: nat): real
    requires m <= |a| && m <= |b|
  {
    if m == 0 then 0.0 else Dot(a, b, m - 1) + a[m - 1] * b[m - 1]
  }

  /** deltaOutput: output minus target. */
  function OutputDelta(output: seq<real>, target: seq<real>): (delta: seq<real>)
    requires |output| == |target|
    ensures |delta| == |output|
  {
    seq(|output|, i requires 0 <= i < |output| => output[i] - target[i])
  }

  /** The sum over k < m of (output[k] - target[k])^2, accumulated left to
      right as train's loss loop does. */
  function SquaredErrorSum(output: seq<real>, target: seq<real>, m: nat): (sum: real)
    requires m <= |output| && m <= |target|
    ensures sum >= 0.0
  {
    if m == 0 then 0.0
    else
      var error := output[m - 1] - target[m - 1];
      SquaredErrorSum(output, target, m - 1) + error * error
  }

  /** The mean squared error of one sample over the five outputs (the
      division by outputLayer.length, which is always 5). */
  function SampleLoss(output: seq<real>, target: seq<real>): (loss: real)
    requires |output| == OutputCount && |target| == OutputCount
    ensures loss >= 0.0
  {
    SquaredErrorSum(output, target, OutputCount) / (OutputCount as real)
  }

  /** The delta of a hidden layer: the error each neuron receives through its
      weights to the next layer, times the ReLU derivative of its
      pre-activation. */
  function BackDelta(next: seq<real>, weights: Matrix, pre: seq<real>, n: nat): (delta: seq<real>)
    requires n <= |pre| && n <= |weights| && forall j :: 0 <= j < n ==> |next| <= |weights[j]|
    ensures |delta| == n
    ensures forall j :: 0 <= j < n && pre[j] <= 0.0 ==> delta[j] == 0.0
    ensures forall j :: 0 <= j < n && pre[j] > 0.0 ==> delta[j] == Dot(next, weights[j], |next|)
  {
    seq(n, j requires 0 <= j < n => Dot(next, weights[j], |next|) * ReluDerivative(pre[j]))
  }

  /** deltas[layer] of train, for a hidden layer. */
  function DeltaAt(net: Network, hiddenLayers: int, n: nat, a: Activations, deltaOutput: seq<real>, layer: nat)
    : (delta: seq<real>)
    requires Shaped(net, hiddenLayers, n) && ActivationsShaped(a, hiddenLayers, n)
    requires |deltaOutput| == OutputCount && layer < hiddenLayers
    decreases hiddenLayers - layer
    ensures |delta| == n
  {
    if layer == hiddenLayers - 1 then
      BackDelta(deltaOutput, net.weightsOutput, a.preActivationHidden[layer], n)
    else
      BackDelta(DeltaAt(net, hiddenLayers, n, a, deltaOutput, layer + 1), net.hiddenWeights[layer],
        a.preActivationHidden[layer], n)
  }

  /** weights[i][j] -= learningRate * delta[j] * input[i], for every entry. */
  function Stepped(weights: Matrix, delta: seq<real>, input: seq<real>, learningRate: real): (r: Matrix)
    requires HasShape(weights, |input|, |delta|)
    ensures HasShape(r, |input|, |delta|)
  {
    seq(|input|, i requires 0 <= i < |input| =>
      seq(|delta|, j requires 0 <= j < |delta| => weights[i][j] - learningRate * delta[j] * input[i]))
  }

  /** biases[j] -= learningRate * delta[j], for every entry. */
  function BiasStepped(biases: seq<real>, delta: seq<real>, learningRate: real): (r: seq<real>)
    requires |biases| == |delta|
    ensures |r| == |biases|
  {
    seq(|biases|, j requires 0 <= j < |biases| => biases[j] - learningRate * delta[j])
  }

  /** The hidden-layer updates of train: the weights into hidden layer `layer`
      and its biases step along that layer's delta. */
  function HiddenStepped(net: Network, a: Activations, deltas: seq<seq<real>>, learningRate: real,
                         hiddenLayers: int, n: nat): (r: Network)
    requires Shaped(net, hiddenLayers, n) && ActivationsShaped(a, hiddenLayers, n)
    requires |deltas| == Max0(hiddenLayers) && forall l :: 0 <= l < |deltas| ==> |deltas[l]| == n
    ensures Shaped(r, hiddenLayers, n)
    ensures r.weightsOutput == net.weightsOutput && r.biasesOutput == net.biasesOutput
  {
    if hiddenLayers <= 0 then net
    else
      var hiddenWeights := seq(hiddenLayers - 1, k requires 0 <= k < hiddenLayers - 1 =>
        Stepped(net.hiddenWeights[k], deltas[k + 1], a.hidden[k], learningRate));
      var hiddenBiases := seq(hiddenLayers - 1, k requires 0 <= k < hiddenLayers - 1 =>
        BiasStepped(net.hiddenBiases[k], deltas[k + 1], learningRate));
      assert forall k :: 0 <= k < hiddenLayers - 1 ==>
        hiddenWeights[k] == Stepped(net.hiddenWeights[k], deltas[k + 1], a.hidden[k], learningRate);
      assert forall k :: 0 <= k < hiddenLayers - 1 ==>
        hiddenBiases[k] == BiasStepped(net.hiddenBiases[k], deltas[k + 1], learningRate);
      net.(weights1 := Stepped(net.weights1, deltas[0], a.input, learningRate),
           biases1 := BiasStepped(net.biases1, deltas[0], learningRate),
           hiddenWeights := hiddenWeights, hiddenBiases := hiddenBiases)
  }

  /** Hidden layer `layer` after HiddenStepped: its weights and biases
      stepped along deltas[layer], with the layer's input as forwardPass saw it. */
  lemma HiddenSteppedLayer(net: Network, a: Activations, deltas: seq<seq<real>>, learningRate: real,
                           hiddenLayers: int, n: nat, layer: nat)
    requires Shaped(net, hiddenLayers, n) && ActivationsShaped(a, hiddenLayers, n)
    requires |deltas| == Max0(hiddenLayers) && forall l :: 0 <= l < |deltas| ==> |deltas[l]| == n
    requires layer < hiddenLayers
    ensures var r := HiddenStepped(net, a, deltas, learningRate, hiddenLayers, n);
      var input := if layer == 0 then a.input else a.hidden[layer - 1];
      && LayerWeights(r, layer) == Stepped(LayerWeights(net, layer), deltas[layer], input, learningRate)
      && LayerBiases(r, layer) == BiasStepped(LayerBiases(net, layer), deltas[layer], learningRate)
  {
  }

  /** Whether training on a sample throws: the TypeError of forwardPass, or
      the RangeError of `new Array(hiddenLayers + 1)`. */
  predicate SampleFails(hiddenLayers: int, n: nat)
  {
    (hiddenLayers <= 0 && n > 0) || hiddenLayers < -1
  }

  /** The updates train makes after the forward pass `a` of a sample with
      target `target`: output layer first, then the hidden layers. */
  function Backward(net: Network, hiddenLayers: int, n: nat, learningRate: real, a: Activations, target: seq<real>)
    : (r: Network)
    requires Shaped(net, hiddenLayers, n) && ActivationsShaped(a, hiddenLayers, n) && |target| == OutputCount
    requires hiddenLayers <= 0 ==> n == 0
    ensures Shaped(r, hiddenLayers, n)
  {
    var deltaOutput := OutputDelta(a.output, target);
    var deltas := seq(Max0(hiddenLayers), layer requires 0 <= layer < Max0(hiddenLayers) =>
      DeltaAt(net, hiddenLayers, n, a, deltaOutput, layer));
    var last := if hiddenLayers > 0 then a.hidden[hiddenLayers - 1] else [];
    var stepped := net.(
      weightsOutput := Stepped(net.weightsOutput, deltaOutput, last, learningRate),
      biasesOutput := BiasStepped(net.biasesOutput, deltaOutput, learningRate));
    HiddenStepped(stepped, a, deltas, learningRate, hiddenLayers, n)
  }

  /** What one sample of train does: the network after the updates, and the
      sample's loss; `None` when it throws. */
  function Learned(net: Network, hiddenLayers: int, n: nat, learningRate: real, sample: Sample, exp: real -> real)
    : (r: Option<(Network, real)>)
    requires Shaped(net, hiddenLayers, n) && SampleShaped(sample) && PositiveExp(exp)
    ensures r.None? <==> SampleFails(hiddenLayers, n)
    ensures r.Some? ==> Shaped(r.value.0, hiddenLayers, n) && r.value.1 >= 0.0
  {
    var forward := Forward(net, hiddenLayers, n, sample.inputs, exp);
    if forward.None? || hiddenLayers < -1 then None
    else
      var a := forward.value;
      ForwardShape(net, hiddenLayers, n, sample.inputs, exp);
      Some((Backward(net, hiddenLayers, n, learningRate, a, sample.desiredOutput), SampleLoss(a.output, sample.desiredOutput)))
  }

  /** The output layer's update: each weight from hidden neuron i to output j
      moves by -learningRate * (output[j] - target[j]) * lastHidden[i], each
      output bias by -learningRate * (output[j] - target[j]). */
  lemma OutputLayerStep(net: Network, hiddenLayers: int, n: nat, learningRate: real, a: Activations,
                        target: seq<real>, j: nat)
    requires Shaped(net, hiddenLayers, n) && ActivationsShaped(a, hiddenLayers, n) && |target| == OutputCount
    requires hiddenLayers <= 0 ==> n == 0
    requires j < OutputCount
    ensures var r := Backward(net, hiddenLayers, n, learningRate, a, target);
      var error := a.output[j] - target[j];
      && (forall i :: 0 <= i < n ==>
            r.weightsOutput[i][j] == net.weightsOutput[i][j] - learningRate * error * a.hidden[hiddenLayers - 1][i])
      && r.biasesOutput[j] == net.biasesOutput[j] - learningRate * error
  {
    var deltaOutput := OutputDelta(a.output, target);
    var last := if hiddenLayers > 0 then a.hidden[hiddenLayers - 1] else [];
    var weightsOutput := Stepped(net.weightsOutput, deltaOutput, last, learningRate);
    var biasesOutput := BiasStepped(net.biasesOutput, deltaOutput, learningRate);
    var r := Backward(net, hiddenLayers, n, learningRate, a, target);
    assert r.weightsOutput == weightsOutput && r.biasesOutput == biasesOutput;
    assert deltaOutput[j] == a.output[j] - target[j];
  }

  /** ReLU gating: the weights into a hidden neuron that was not active, and
      its bias, do not change. */
  lemma InactiveNeuronKeepsWeights(net: Network, hiddenLayers: int, n: nat, learningRate: real, a: Activations,
                                   target: seq<real>, layer: nat, j: nat)
    requires Shaped(net, hiddenLayers, n) && ActivationsShaped(a, hiddenLayers, n) && |target| == OutputCount
    requires layer < hiddenLayers && j < n && a.preActivationHidden[layer][j] <= 0.0
    ensures var r := Backward(net, hiddenLayers, n, learningRate, a, target);
      && (forall i :: 0 <= i < |LayerWeights(r, layer)| ==> LayerWeights(r, layer)[i][j] == LayerWeights(net, layer)[i][j])
      && LayerBiases(r, layer)[j] == LayerBiases(net, layer)[j]
  {
    var deltaOutput := OutputDelta(a.output, target);
    var deltas := seq(Max0(hiddenLayers), l requires 0 <= l < Max0(hiddenLayers) =>
      DeltaAt(net, hiddenLayers, n, a, deltaOutput, l));
    assert deltas[layer] == DeltaAt(net, hiddenLayers, n, a, deltaOutput, layer);
    assert deltas[layer][j] == 0.0;
    var last := a.hidden[hiddenLayers - 1];
    var stepped := net.(
      weightsOutput := Stepped(net.weightsOutput, deltaOutput, last, learningRate),
      biasesOutput := BiasStepped(net.biasesOutput, deltaOutput, learningRate));
    var r := Backward(net, hiddenLayers, n, learningRate, a, target);
    assert r == HiddenStepped(stepped, a, deltas, learningRate, hiddenLayers, n);
    HiddenSteppedLayer(stepped, a, deltas, learningRate, hiddenLayers, n, layer);
    assert LayerWeights(stepped, layer) == LayerWeights(net, layer);
    assert LayerBiases(stepped, layer) == LayerBiases(net, layer);
    var input := if layer == 0 then a.input else a.hidden[layer - 1];
    ZeroDeltaKeepsColumn(LayerWeights(net, layer), LayerBiases(net, layer), deltas[layer], input, learningRate, j);
  }

  /** A zero delta[j] leaves column j of the weights and bias j as they were. */
  lemma ZeroDeltaKeepsColumn(weights: Matrix, biases: seq<real>, delta: seq<real>, input: seq<real>,
                             learningRate: real, j: nat)
    requires HasShape(weights, |input|, |delta|) && |biases| == |delta| && j < |delta| && delta[j] == 0.0
    ensures forall i :: 0 <= i < |input| ==> Stepped(weights, delta, input, learningRate)[i][j] == weights[i][j]
    ensures BiasStepped(biases, delta, learningRate)[j] == biases[j]
  {
  }

  // ---------------------------------------------------------------------------
  // The loops of one training step
  // ---------------------------------------------------------------------------

  /** The sample-loss loop of train. */
  method SquaredError(output: seq<real>, target: seq<real>) returns (loss: real)
    requires |output| == OutputCount && |target| == OutputCount
    ensures loss == SampleLoss(output, target)
  {
    loss := 0.0;
    for i := 0 to |output|
      invariant loss == SquaredErrorSum(output, target, i)
    {
      loss := loss + (output[i] - target[i]) * (output[i] - target[i]);
    }
    loss := loss / (|output| as real);
  }

  /** The deltaOutput loop of train. */
  method OutputErrors(output: seq<real>, target: seq<real>) returns (delta: seq<real>)
    requires |output| == OutputCount && |target| == OutputCount
    ensures delta == OutputDelta(output, target)
  {
    delta := [0.0, 0.0, 0.0, 0.0, 0.0];
    for i := 0 to OutputCount
      invariant |delta| == OutputCount
      invariant forall k :: 0 <= k < i ==> delta[k] == output[k] - target[k]
    {
      delta := delta[i := output[i] - target[i]];
    }
  }

  /** The delta of one hidden layer, as train's inner loops compute it. */
  method LayerDelta(next: seq<real>, weights: Matrix, pre: seq<real>, n: nat) returns (delta: seq<real>)
    requires n <= |pre| && n <= |weights| && forall j :: 0 <= j < n ==> |next| <= |weights[j]|
    ensures delta == BackDelta(next, weights, pre, n)
  {
    delta := seq(n, _ => 0.0);
    for j := 0 to n
      invariant |delta| == n
      invariant forall k :: 0 <= k < j ==> delta[k] == Dot(next, weights[k], |next|) * ReluDerivative(pre[k])
    {
      var errorSum := 0.0;
      for k := 0 to |next|
        invariant errorSum == Dot(next, weights[j], k)
      {
        errorSum := errorSum + next[k] * weights[j][k];
      }
      delta := delta[j := errorSum * ReluDerivative(pre[j])];
    }
  }

  /** The backpropagation loop of train, from the last hidden layer down to
      the first; deltas[layer] for each hidden layer. */
  method Backpropagate(net: Network, hiddenLayers: int, n: nat, a: Activations, deltaOutput: seq<real>)
    returns (deltas: seq<seq<real>>)
    requires Shaped(net, hiddenLayers, n) && ActivationsShaped(a, hiddenLayers, n) && |deltaOutput| == OutputCount
    ensures |deltas| == Max0(hiddenLayers)
    ensures forall l :: 0 <= l < |deltas| ==> deltas[l] == DeltaAt(net, hiddenLayers, n, a, deltaOutput, l)
  {
    deltas := seq(Max0(hiddenLayers), _ => []);
    var next := deltaOutput;
    var layer := hiddenLayers - 1;
    while layer >= 0
      invariant layer < Max0(hiddenLayers) && (layer >= -1 || layer == hiddenLayers - 1)
      invariant |deltas| == Max0(hiddenLayers)
      invariant forall l :: 0 <= l < Max0(hiddenLayers) && layer < l ==> deltas[l] == DeltaAt(net, hiddenLayers, n, a, deltaOutput, l)
      invariant 0 <= layer < hiddenLayers - 1 ==> next == deltas[layer + 1]
      invariant layer == hiddenLayers - 1 ==> next == deltaOutput
      decreases layer
    {
      var weights := if layer == hiddenLayers - 1 then net.weightsOutput else net.hiddenWeights[layer];
      var delta := LayerDelta(next, weights, a.preActivationHidden[layer], n);
      deltas := deltas[layer := delta];
      next := delta;
      layer := layer - 1;
    }
  }

  /** The entries of Stepped and BiasStepped. */
  lemma SteppedEntries(weights: Matrix, biases: seq<real>, delta: seq<real>, input: seq<real>, learningRate: real)
    requires HasShape(weights, |input|, |delta|) && |biases| == |delta|
    ensures forall i, j :: 0 <= i < |input| && 0 <= j < |delta| ==>
      Stepped(weights, delta, input, learningRate)[i][j] == weights[i][j] - learningRate * delta[j] * input[i]
    ensures forall j :: 0 <= j < |delta| ==>
      BiasStepped(biases, delta, learningRate)[j] == biases[j] - learningRate * delta[j]
  {
  }

  /** The weight-update loops of train: every weights[i][j] steps along
      delta[j] * input[i]. */
  method StepWeights(weights: Matrix, delta: seq<real>, input: seq<real>, learningRate: real) returns (r: Matrix)
    requires HasShape(weights, |input|, |delta|)
    ensures r == Stepped(weights, delta, input, learningRate)
  {
    ghost var target := Stepped(weights, delta, input, learningRate);
    SteppedEntries(weights, seq(|delta|, _ => 0.0), delta, input, learningRate);
    r := weights;
    for i := 0 to |input|
      invariant |r| == |input|
      invariant forall p :: 0 <= p < i ==> r[p] == target[p]
      invariant forall p :: i <= p < |input| ==> r[p] == weights[p]
    {
      var row := r[i];
      for j := 0 to |delta|
        invariant |row| == |delta|
        invariant forall q :: 0 <= q < j ==> row[q] == target[i][q]
        invariant forall q :: j <= q < |delta| ==> row[q] == weights[i][q]
      {
        row := row[j := row[j] - learningRate * delta[j] * input[i]];
      }
      assert row == target[i];
      r := r[i := row];
    }
    assert r == target;
  }

  /** The bias-update loops of train. */
  method StepBiases(biases: seq<real>, delta: seq<real>, learningRate: real) returns (r: seq<real>)
    requires |biases| == |delta|
    ensures r == BiasStepped(biases, delta, learningRate)
  {
    ghost var target := BiasStepped(biases, delta, learningRate);
    r := biases;
    for j := 0 to |biases|
      invariant |r| == |biases|
      invariant forall q :: 0 <= q < j ==> r[q] == target[q]
      invariant forall q :: j <= q < |biases| ==> r[q] == biases[q]
    {
      r := r[j := r[j] - learningRate * delta[j]];
    }
    assert r == target;
  }

  /** The updates of hidden layer `layer` (0 is the one fed by the inputs):
      its weights and biases step along `delta`, nothing else changes. */
  method StepLayer(net: Network, input: seq<real>, delta: seq<real>, learningRate: real, layer: nat)
    returns (r: Network)
    requires layer == 0 ==> HasShape(net.weights1, |input|, |delta|) && |net.biases1| == |delta|
    requires layer > 0 ==>
      && layer - 1 < |net.hiddenWeights| && layer - 1 < |net.hiddenBiases|
      && HasShape(net.hiddenWeights[layer - 1], |input|, |delta|) && |net.hiddenBiases[layer - 1]| == |delta|
    ensures layer == 0 ==>
      r == net.(weights1 := Stepped(net.weights1, delta, input, learningRate),
                biases1 := BiasStepped(net.biases1, delta, learningRate))
    ensures layer > 0 ==>
      r == net.(hiddenWeights := net.hiddenWeights[layer - 1 := Stepped(net.hiddenWeights[layer - 1], delta, input, learningRate)],
                hiddenBiases := net.hiddenBiases[layer - 1 := BiasStepped(net.hiddenBiases[layer - 1], delta, learningRate)])
  {
    if layer == 0 {
      var weights1 := StepWeights(net.weights1, delta, input, learningRate);
      var biases1 := StepBiases(net.biases1, delta, learningRate);
      r := net.(weights1 := weights1, biases1 := biases1);
    } else {
      var weights := StepWeights(net.hiddenWeights[layer - 1], delta, input, learningRate);
      var biases := StepBiases(net.hiddenBiases[layer - 1], delta, learningRate);
      r := net.(hiddenWeights := net.hiddenWeights[layer - 1 := weights],
                hiddenBiases := net.hiddenBiases[layer - 1 := biases]);
    }
  }

  /** The network while the downward loop of train over the hidden layers
      is at `layer`: the layers above it have been stepped, the others not. */
  function PartlyStepped(net: Network, a: Activations, deltas: seq<seq<real>>, learningRate: real,
                         hiddenLayers: int, n: nat, layer: int): (r: Network)
    requires Shaped(net, hiddenLayers, n) && ActivationsShaped(a, hiddenLayers, n)
    requires |deltas| == Max0(hiddenLayers) && forall l :: 0 <= l < |deltas| ==> |deltas[l]| == n
    ensures Shaped(r, hiddenLayers, n)
  {
    var hiddenWeights := seq(|net.hiddenWeights|, k requires 0 <= k < |net.hiddenWeights| =>
      if layer <= k then Stepped(net.hiddenWeights[k], deltas[k + 1], a.hidden[k], learningRate)
      else net.hiddenWeights[k]);
    var hiddenBiases := seq(|net.hiddenBiases|, k requires 0 <= k < |net.hiddenBiases| =>
      if layer <= k then BiasStepped(net.hiddenBiases[k], deltas[k + 1], learningRate)
      else net.hiddenBiases[k]);
    assert forall k :: 0 <= k < |hiddenWeights| ==> HasShape(hiddenWeights[k], n, n);
    net.(weights1 := if layer < 0 && hiddenLayers > 0 then Stepped(net.weights1, deltas[0], a.input, learningRate)
                     else net.weights1,
         biases1 := if layer < 0 && hiddenLayers > 0 then BiasStepped(net.biases1, deltas[0], learningRate)
                    else net.biases1,
         hiddenWeights := hiddenWeights, hiddenBiases := hiddenBiases)
  }

  /** Before the loop nothing has been stepped. */
  lemma PartlySteppedStart(net: Network, a: Activations, deltas: seq<seq<real>>, learningRate: real,
                           hiddenLayers: int, n: nat)
    requires Shaped(net, hiddenLayers, n) && ActivationsShaped(a, hiddenLayers, n)
    requires |deltas| == Max0(hiddenLayers) && forall l :: 0 <= l < |deltas| ==> |deltas[l]| == n
    ensures PartlyStepped(net, a, deltas, learningRate, hiddenLayers, n, hiddenLayers - 1) == net
  {
    var r := PartlyStepped(net, a, deltas, learningRate, hiddenLayers, n, hiddenLayers - 1);
    assert r.hiddenWeights == net.hiddenWeights;
    assert r.hiddenBiases == net.hiddenBiases;
  }

  /** One pass of the loop steps layer `layer` and moves on to the one below. */
  lemma PartlySteppedStep(net: Network, a: Activations, deltas: seq<seq<real>>, learningRate: real,
                          hiddenLayers: int, n: nat, layer: nat)
    requires Shaped(net, hiddenLayers, n) && ActivationsShaped(a, hiddenLayers, n)
    requires |deltas| == Max0(hiddenLayers) && forall l :: 0 <= l < |deltas| ==> |deltas[l]| == n
    requires layer < hiddenLayers
    ensures var r := PartlyStepped(net, a, deltas, learningRate, hiddenLayers, n, layer);
      var next := PartlyStepped(net, a, deltas, learningRate, hiddenLayers, n, layer - 1);
      && (layer == 0 ==>
            next == r.(weights1 := Stepped(r.weights1, deltas[0], a.input, learningRate),
                       biases1 := BiasStepped(r.biases1, deltas[0], learningRate)))
      && (layer > 0 ==>
            next == r.(hiddenWeights := r.hiddenWeights[layer - 1 :=
                         Stepped(r.hiddenWeights[layer - 1], deltas[layer], a.hidden[layer - 1], learningRate)],
                       hiddenBiases := r.hiddenBiases[layer - 1 :=
                         BiasStepped(r.hiddenBiases[layer - 1], deltas[layer], learningRate)]))
  {
    var r := PartlyStepped(net, a, deltas, learningRate, hiddenLayers, n, layer);
    var next := PartlyStepped(net, a, deltas, learningRate, hiddenLayers, n, layer - 1);
    if layer == 0 {
      assert next.hiddenWeights == r.hiddenWeights;
      assert next.hiddenBiases == r.hiddenBiases;
    } else {
      assert next.hiddenWeights == r.hiddenWeights[layer - 1 :=
        Stepped(r.hiddenWeights[layer - 1], deltas[layer], a.hidden[layer - 1], learningRate)];
      assert next.hiddenBiases == r.hiddenBiases[layer - 1 :=
        BiasStepped(r.hiddenBiases[layer - 1], deltas[layer], learningRate)];
    }
  }

  /** After the loop every hidden layer has been stepped. */
  lemma PartlySteppedDone(net: Network, a: Activations, deltas: seq<seq<real>>, learningRate: real,
                          hiddenLayers: int, n: nat, layer: int)
    requires Shaped(net, hiddenLayers, n) && ActivationsShaped(a, hiddenLayers, n)
    requires |deltas| == Max0(hiddenLayers) && forall l :: 0 <= l < |deltas| ==> |deltas[l]| == n
    requires layer == -1 || (hiddenLayers <= 0 && layer == hiddenLayers - 1)
    ensures PartlyStepped(net, a, deltas, learningRate, hiddenLayers, n, layer) ==
      HiddenStepped(net, a, deltas, learningRate, hiddenLayers, n)
  {
    var r := PartlyStepped(net, a, deltas, learningRate, hiddenLayers, n, layer);
    var target := HiddenStepped(net, a, deltas, learningRate, hiddenLayers, n);
    assert r.hiddenWeights == target.hiddenWeights;
    assert r.hiddenBiases == target.hiddenBiases;
  }

  /** The loop of train updating the hidden layers, from the last down to the
      one fed by the inputs. */
  method StepHiddenLayers(net: Network, a: Activations, deltas: seq<seq<real>>, learningRate: real,
                          hiddenLayers: int, n: nat) returns (r: Network)
    requires Shaped(net, hiddenLayers, n) && ActivationsShaped(a, hiddenLayers, n)
    requires |deltas| == Max0(hiddenLayers) && forall l :: 0 <= l < |deltas| ==> |deltas[l]| == n
    ensures r == HiddenStepped(net, a, deltas, learningRate, hiddenLayers, n)
  {
    r := net;
    var layer := hiddenLayers - 1;
    PartlySteppedStart(net, a, deltas, learningRate, hiddenLayers, n);
    while layer >= 0
      invariant layer < Max0(hiddenLayers) && (layer >= -1 || layer == hiddenLayers - 1)
      invariant r == PartlyStepped(net, a, deltas, learningRate, hiddenLayers, n, layer)
      decreases layer
    {
      var input := if layer == 0 then a.input else a.hidden[layer - 1];
      PartlySteppedStep(net, a, deltas, learningRate, hiddenLayers, n, layer);
      r := StepLayer(r, input, deltas[layer], learningRate, layer);
      layer := layer - 1;
    }
    PartlySteppedDone(net, a, deltas, learningRate, hiddenLayers, n, layer);
  }

  /** Learned once the forward pass succeeded and the deltas array could be
      created. */
  lemma LearnedUnfold(net: Network, hiddenLayers: int, n: nat, learningRate: real, sample: Sample, exp: real -> real)
    requires Shaped(net, hiddenLayers, n) && SampleShaped(sample) && PositiveExp(exp)
    requires !SampleFails(hiddenLayers, n)
    ensures Forward(net, hiddenLayers, n, sample.inputs, exp).Some?
    ensures var a := Forward(net, hiddenLayers, n, sample.inputs, exp).value;
      && ActivationsShaped(a, hiddenLayers, n)
      && Learned(net, hiddenLayers, n, learningRate, sample, exp) ==
           Some((Backward(net, hiddenLayers, n, learningRate, a, sample.desiredOutput),
                 SampleLoss(a.output, sample.desiredOutput)))
  {
    ForwardShape(net, hiddenLayers, n, sample.inputs, exp);
  }

  /** Backward, given the hidden deltas. */
  lemma BackwardUnfold(net: Network, hiddenLayers: int, n: nat, learningRate: real, a: Activations,
                       target: seq<real>, deltas: seq<seq<real>>)
    requires Shaped(net, hiddenLayers, n) && ActivationsShaped(a, hiddenLayers, n) && |target| == OutputCount
    requires hiddenLayers <= 0 ==> n == 0
    requires |deltas| == Max0(hiddenLayers)
    requires forall l :: 0 <= l < |deltas| ==>
      deltas[l] == DeltaAt(net, hiddenLayers, n, a, OutputDelta(a.output, target), l)
    ensures var deltaOutput := OutputDelta(a.output, target);
      var last := if hiddenLayers > 0 then a.hidden[hiddenLayers - 1] else [];
      Backward(net, hiddenLayers, n, learningRate, a, target) ==
        HiddenStepped(net.(weightsOutput := Stepped(net.weightsOutput, deltaOutput, last, learningRate),
                           biasesOutput := BiasStepped(net.biasesOutput, deltaOutput, learningRate)),
                      a, deltas, learningRate, hiddenLayers, n)
  {
    var deltaOutput := OutputDelta(a.output, target);
    var spec := seq(Max0(hiddenLayers), layer requires 0 <= layer < Max0(hiddenLayers) =>
      DeltaAt(net, hiddenLayers, n, a, deltaOutput, layer));
    assert deltas == spec;
  }

  /** One sample of train: forward pass, loss, deltas, then the output-layer
      and hidden-layer updates. */
  method LearnSample(net: Network, hiddenLayers: int, n: nat, learningRate: real, sample: Sample, exp: real -> real)
    returns (r: Option<(Network, real)>)
    requires Shaped(net, hiddenLayers, n) && SampleShaped(sample) && PositiveExp(exp)
    ensures r == Learned(net, hiddenLayers, n, learningRate, sample, exp)
    ensures r.None? <==> SampleFails(hiddenLayers, n)
    ensures r.Some? ==> Shaped(r.value.0, hiddenLayers, n) && r.value.1 >= 0.0
  {
    var forward := ForwardPass(net, hiddenLayers, n, sample.inputs, exp);
    if forward.None? {
      return None;
    }
    var a := forward.value;
    ForwardShape(net, hiddenLayers, n, sample.inputs, exp);
    var loss := SquaredError(a.output, sample.desiredOutput);
    var deltaOutput := OutputErrors(a.output, sample.desiredOutput);
    if hiddenLayers < -1 {
      // new Array(hiddenLayers + 1) throws a RangeError
      return None;
    }
    var deltas := Backpropagate(net, hiddenLayers, n, a, deltaOutput);
    var last := if hiddenLayers > 0 then a.hidden[hiddenLayers - 1] else [];
    var weightsOutput := StepWeights(net.weightsOutput, deltaOutput, last, learningRate);
    var biasesOutput := StepBiases(net.biasesOutput, deltaOutput, learningRate);
    var stepped := net.(weightsOutput := weightsOutput, biasesOutput := biasesOutput);
    var updated := StepHiddenLayers(stepped, a, deltas, learningRate, hiddenLayers, n);
    LearnedUnfold(net, hiddenLayers, n, learningRate, sample, exp);
    BackwardUnfold(net, hiddenLayers, n, learningRate, a, sample.desiredOutput, deltas);
    r := Some((updated, loss));
  }

  // ---------------------------------------------------------------------------
  // Epochs
  // ---------------------------------------------------------------------------

  /** Every sample has the shape generateTrainingData produces. */
  predicate AllShaped(samples: seq<Sample>)
  {
    forall k :: 0 <= k < |samples| ==> SampleShaped(samples[k])
  }

  /** The per-epoch shuffle of train only reorders the training data. */
  ghost predicate Shuffles(shuffle: (nat, seq<Sample>) -> seq<Sample>)
  {
    forall epoch, data :: multiset(shuffle(epoch, data)) == multiset(data)
  }

  /** A reordering keeps the length and the shape of every sample. */
  lemma {:induction false} ReorderedShaped(data: seq<Sample>, shuffled: seq<Sample>)
    requires AllShaped(data) && multiset(shuffled) == multiset(data)
    ensures |shuffled| == |data| && AllShaped(shuffled)
  {
    assert |multiset(shuffled)| == |multiset(data)|;
    forall k | 0 <= k < |shuffled|
      ensures SampleShaped(shuffled[k])
    {
      assert shuffled[k] in multiset(shuffled);
      assert shuffled[k] in multiset(data);
      var j :| 0 <= j < |data| && data[j] == shuffled[k];
    }
  }

  /** Every entry is non-negative. */
  predicate AllNonNegative(s: seq<real>)
  {
    forall k :: 0 <= k < |s| ==> s[k] >= 0.0
  }

  /** The loop of train over the samples of one epoch, from sample i, the
      running network and the losses so far on: the network after the last
      sample and the loss of every sample in turn, `None` when a sample
      throws. */
  function EpochFrom(net: Network, hiddenLayers: int, n: nat, learningRate: real, samples: seq<Sample>, i: nat,
                     exp: real -> real, losses: seq<real>): (r: Option<(Network, seq<real>)>)
    requires Shaped(net, hiddenLayers, n) && AllShaped(samples) && PositiveExp(exp) && AllNonNegative(losses)
    requires i <= |samples|
    decreases |samples| - i
    ensures r.None? <==> i < |samples| && SampleFails(hiddenLayers, n)
    ensures r.Some? ==>
      Shaped(r.value.0, hiddenLayers, n) && AllNonNegative(r.value.1) && |r.value.1| == |losses| + |samples| - i
  {
    if i == |samples| then Some((net, losses))
    else
      match Learned(net, hiddenLayers, n, learningRate, samples[i], exp)
      case None => None
      case Some(step) => EpochFrom(step.0, hiddenLayers, n, learningRate, samples, i + 1, exp, losses + [step.1])
  }

  /** Past the last sample an epoch returns what it was given. */
  lemma EpochFromDone(net: Network, hiddenLayers: int, n: nat, learningRate: real, samples: seq<Sample>,
                      exp: real -> real, losses: seq<real>)
    requires Shaped(net, hiddenLayers, n) && AllShaped(samples) && PositiveExp(exp) && AllNonNegative(losses)
    ensures EpochFrom(net, hiddenLayers, n, learningRate, samples, |samples|, exp, losses) == Some((net, losses))
  {
  }

  /** Appending a loss adds it to the total. */
  lemma SumAppend(losses: seq<real>, loss: real)
    ensures Sum(losses + [loss]) == Sum(losses) + loss
  {
    assert (losses + [loss])[..|losses|] == losses;
  }

  /** An entry of trainingHistory. */
  datatype EpochRecord = EpochRecord(epoch: int, loss: real)

  /** The records are numbered 0, 1, 2, ... and every loss is non-negative. */
  predicate TrainingLog(history: seq<EpochRecord>)
  {
    forall k :: 0 <= k < |history| ==> history[k].epoch == k && history[k].loss >= 0.0
  }

  /** The first `count` epochs of train over `data`: the network after them
      and the records logged, `None` when an epoch throws. */
  function Epochs(net: Network, hiddenLayers: int, n: nat, learningRate: real, data: seq<Sample>,
                  shuffle: (nat, seq<Sample>) -> seq<Sample>, exp: real -> real, count: nat)
    : (r: Option<(Network, seq<EpochRecord>)>)
    requires Shaped(net, hiddenLayers, n) && AllShaped(data) && |data| > 0 && PositiveExp(exp) && Shuffles(shuffle)
    ensures r.None? <==> count > 0 && SampleFails(hiddenLayers, n)
    ensures r.Some? ==> Shaped(r.value.0, hiddenLayers, n) && TrainingLog(r.value.1) && |r.value.1| == count
  {
    if count == 0 then Some((net, []))
    else
      match Epochs(net, hiddenLayers, n, learningRate, data, shuffle, exp, count - 1)
      case None => None
      case Some(previous) => EpochAfter(previous.0, previous.1, hiddenLayers, n, learningRate, data, shuffle, exp)
  }

  /** One more epoch of train after the logged ones: the data shuffled for
      this epoch, every sample learned in turn, and the average loss logged
      under the next epoch number; `None` when a sample throws. */
  function EpochAfter(current: Network, history: seq<EpochRecord>, hiddenLayers: int, n: nat, learningRate: real,
                      data: seq<Sample>, shuffle: (nat, seq<Sample>) -> seq<Sample>, exp: real -> real)
    : (r: Option<(Network, seq<EpochRecord>)>)
    requires Shaped(current, hiddenLayers, n) && TrainingLog(history)
    requires AllShaped(data) && |data| > 0 && PositiveExp(exp) && Shuffles(shuffle)
    ensures r.None? <==> SampleFails(hiddenLayers, n)
    ensures r.Some? ==>
      Shaped(r.value.0, hiddenLayers, n) && TrainingLog(r.value.1) && |r.value.1| == |history| + 1 &&
      r.value.1[..|history|] == history && r.value.1[|history|].loss >= 0.0
  {
    var shuffled := shuffle(|history|, data);
    ReorderedShaped(data, shuffled);
    match EpochFrom(current, hiddenLayers, n, learningRate, shuffled, 0, exp, [])
    case None => None
    case Some(epoch) =>
      SumNonNegative(epoch.1);
      LogExtended(history, Sum(epoch.1), |data|);
      var logged := history + [EpochRecord(|history|, Sum(epoch.1) / (|data| as real))];
      assert logged[..|history|] == history;
      Some((epoch.0, logged))
  }

  /** Logging the average loss of the next epoch keeps the log well formed. */
  lemma LogExtended(history: seq<EpochRecord>, totalLoss: real, size: nat)
    requires TrainingLog(history) && totalLoss >= 0.0 && size > 0
    ensures TrainingLog(history + [EpochRecord(|history|, totalLoss / (size as real))])
  {
    assert totalLoss / (size as real) >= 0.0;
  }

  /** Running one more epoch, whose shuffled samples bring the network from
      `current` to `next` at a total loss of `totalLoss`, extends the run by
      that network and the epoch's record. */
  lemma EpochsStep(net: Network, hiddenLayers: int, n: nat, learningRate: real, data: seq<Sample>,
                   shuffle: (nat, seq<Sample>) -> seq<Sample>, exp: real -> real, count: nat,
                   current: Network, history: seq<EpochRecord>, next: Network, totalLoss: real)
    requires Shaped(net, hiddenLayers, n) && AllShaped(data) && |data| > 0 && PositiveExp(exp) && Shuffles(shuffle)
    requires Epochs(net, hiddenLayers, n, learningRate, data, shuffle, exp, count) == Some((current, history))
    requires AllShaped(shuffle(count, data))
    requires var epoch := EpochFrom(current, hiddenLayers, n, learningRate, shuffle(count, data), 0, exp, []);
      epoch.Some? && epoch.value.0 == next && Sum(epoch.value.1) == totalLoss
    ensures Epochs(net, hiddenLayers, n, learningRate, data, shuffle, exp, count + 1) ==
      Some((next, history + [EpochRecord(count, totalLoss / (|data| as real))]))
  {
  }

  /** The training data of train: generateTrainingData's default 1000 samples. */
  const TrainingSamples := 1000

  function TrainingData(draws: nat -> SampleDraws): (data: seq<Sample>)
    ensures |data| == TrainingSamples && AllShaped(data)
  {
    var data := seq(TrainingSamples, i requires 0 <= i < TrainingSamples => SampleFrom(draws(i)));
    assert forall k :: 0 <= k < |data| ==> data[k] == SampleFrom(draws(k));
    data
  }

  /** The network-building code of initializeNetwork. */
  method BuildNetwork(hiddenLayers: int, n: nat, draws: NetworkDraws, sqrt: real -> real) returns (net: Network)
    ensures net == InitialNetwork(hiddenLayers, n, draws, sqrt)
  {
    var weights1 := InitializeWeights(InputCount, n, draws.weights1, sqrt);
    var biases1 := InitialBiases(n, draws.biases1);
    var biasesOutput := InitialBiases(OutputCount, draws.biasesOutput);
    var hiddenWeights: seq<Matrix> := [];
    var hiddenBiases: seq<seq<real>> := [];
    for i := 0 to Max0(hiddenLayers - 1)
      invariant |hiddenWeights| == i && |hiddenBiases| == i
      invariant forall k :: 0 <= k < i ==> hiddenWeights[k] == Glorot(n, n, draws.hiddenWeights(k), sqrt)
      invariant forall k :: 0 <= k < i ==> hiddenBiases[k] == InitialBiases(n, draws.hiddenBiases(k))
    {
      var weights := InitializeWeights(n, n, draws.hiddenWeights(i), sqrt);
      hiddenWeights := hiddenWeights + [weights];
      hiddenBiases := hiddenBiases + [InitialBiases(n, draws.hiddenBiases(i))];
    }
    var weightsOutput := InitializeWeights(n, OutputCount, draws.weightsOutput, sqrt);
    net := Network(weights1, biases1, hiddenWeights, hiddenBiases, weightsOutput, biasesOutput);
    ghost var target := InitialNetwork(hiddenLayers, n, draws, sqrt);
    assert net.hiddenWeights == target.hiddenWeights;
    assert net.hiddenBiases == target.hiddenBiases;
  }

  /** The force the network's controller computes: `None` when forwardPass
      throws. */
  function NetworkForce(net: Network, hiddenLayers: int, n: nat, angle: real, angularVelocity: real,
                        position: real, velocity: real, exp: real -> real): (force: Option<real>)
    requires Shaped(net, hiddenLayers, n) && PositiveExp(exp)
    ensures force.None? <==> hiddenLayers <= 0 && n > 0
    ensures force.Some? ==> -20.0 <= force.value <= 20.0
  {
    var inputs := PrepareInputs(angle, angularVelocity, position, velocity);
    match Forward(net, hiddenLayers, n, inputs, exp)
    case None => None
    case Some(a) =>
      ForwardShape(net, hiddenLayers, n, inputs, exp);
      CentroidBounds(a.output);
      Some(Centroid(a.output))
  }

  /** What the loop of train over an epoch's samples keeps: the epoch
      continued from the running network after the first `i` samples, whose
      losses the running total adds up, is the epoch from the start. */
  ghost predicate EpochSoFar(net: Network, hiddenLayers: int, n: nat, learningRate: real, samples: seq<Sample>,
                             exp: real -> real, current: Network, i: nat, losses: seq<real>, total: real)
  {
    && Shaped(net, hiddenLayers, n) && AllShaped(samples) && PositiveExp(exp)
    && Shaped(current, hiddenLayers, n) && i <= |samples| && AllNonNegative(losses) && total == Sum(losses)
    && EpochFrom(current, hiddenLayers, n, learningRate, samples, i, exp, losses) ==
       EpochFrom(net, hiddenLayers, n, learningRate, samples, 0, exp, [])
  }

  /** One pass of the loop of train over the samples of an epoch: training on
      samples[i] continues the epoch from the running network and adds the
      sample's loss to the running total. */
  method EpochSample(ghost net: Network, hiddenLayers: int, n: nat, learningRate: real, samples: seq<Sample>,
                     exp: real -> real, current: Network, i: nat, ghost losses: seq<real>, total: real)
    returns (step: Option<(Network, real)>)
    requires EpochSoFar(net, hiddenLayers, n, learningRate, samples, exp, current, i, losses, total)
    requires i < |samples|
    ensures step.None? <==> SampleFails(hiddenLayers, n)
    ensures step.Some? ==>
      EpochSoFar(net, hiddenLayers, n, learningRate, samples, exp, step.value.0, i + 1,
                 losses + [step.value.1], total + step.value.1)
  {
    hide Learned;
    step := LearnSample(current, hiddenLayers, n, learningRate, samples[i], exp);
    if step.Some? {
      SumAppend(losses, step.value.1);
    }
  }

  /** The loop of train over the samples of one epoch: the network after
      them and their total loss, `None` when a sample throws. */
  method RunEpoch(net: Network, hiddenLayers: int, n: nat, learningRate: real, samples: seq<Sample>,
                  exp: real -> real) returns (r: Option<(Network, real)>)
    requires Shaped(net, hiddenLayers, n) && AllShaped(samples) && PositiveExp(exp)
    ensures r.None? <==> |samples| > 0 && SampleFails(hiddenLayers, n)
    ensures r.Some? ==>
      var epoch := EpochFrom(net, hiddenLayers, n, learningRate, samples, 0, exp, []);
      epoch.Some? && epoch.value.0 == r.value.0 && Sum(epoch.value.1) == r.value.1
  {
    hide Learned;
    var current := net;
    var total := 0.0;
    ghost var losses: seq<real> := [];
    for i := 0 to |samples|
      invariant EpochSoFar(net, hiddenLayers, n, learningRate, samples, exp, current, i, losses, total)
    {
      var step := EpochSample(net, hiddenLayers, n, learningRate, samples, exp, current, i, losses, total);
      if step.None? {
        return None;
      }
      current := step.value.0;
      total := total + step.value.1;
      losses := losses + [step.value.1];
    }
    EpochFromDone(current, hiddenLayers, n, learningRate, samples, exp, losses);
    r := Some((current, total));
  }

  /** The epoch with number `epoch` of train, on values: the samples are
      shuffled, the network is updated sample by sample and the epoch's
      average loss is appended to the log. */
  method NextEpoch(ghost start: Network, hiddenLayers: int, n: nat, learningRate: real, data: seq<Sample>,
                   shuffle: (nat, seq<Sample>) -> seq<Sample>, exp: real -> real, epoch: nat,
                   net: Network, history: seq<EpochRecord>) returns (r: Option<(Network, seq<EpochRecord>)>)
    requires Shaped(start, hiddenLayers, n) && AllShaped(data) && |data| > 0 && PositiveExp(exp) && Shuffles(shuffle)
    requires Epochs(start, hiddenLayers, n, learningRate, data, shuffle, exp, epoch) == Some((net, history))
    ensures r.None? <==> SampleFails(hiddenLayers, n)
    ensures r.Some? ==> Epochs(start, hiddenLayers, n, learningRate, data, shuffle, exp, epoch + 1) == r
  {
    var shuffled := shuffle(epoch, data);
    ReorderedShaped(data, shuffled);
    var result := RunEpoch(net, hiddenLayers, n, learningRate, shuffled, exp);
    if result.None? {
      return None;
    }
    EpochsStep(start, hiddenLayers, n, learningRate, data, shuffle, exp, epoch, net, history,
               result.value.0, result.value.1);
    var averageLoss := result.value.1 / (|shuffled| as real);
    r := Some((result.value.0, history + [EpochRecord(epoch, averageLoss)]));
  }

  // ---------------------------------------------------------------------------
  // The controller object
  // ---------------------------------------------------------------------------

  /** The `options` object of the constructor; an absent field is `None`. */
  datatype NeuralOptions = NeuralOptions(
    hiddenLayers: Option<int>, neuronsPerLayer: Option<int>, learningRate: Option<real>, epochs: Option<int>)

  class NeuroFuzzySystem {
    var hiddenLayers: int
    var neuronsPerLayer: nat
    var learningRate: real
    var epochs: int
    var network: Network
    var trainingHistory: seq<EpochRecord>
    var isTraining: bool
    var currentEpoch: int

    /** The parameters, which nothing changes after construction. */
    function Settings(): (int, nat, real, int)
      reads this
    {
      (hiddenLayers, neuronsPerLayer, learningRate, epochs)
    }

    /** The network has the configured shape and the log is well numbered. */
    predicate Valid()
      reads this
    {
      Shaped(network, hiddenLayers, neuronsPerLayer) && TrainingLog(trainingHistory)
    }

    /** The constructor: options with their defaults, then initializeNetwork. */
    constructor(options: NeuralOptions, draws: NetworkDraws, sqrt: real -> real)
      requires CountOrElse(options.neuronsPerLayer, 20) >= 0
      ensures Valid()
      ensures hiddenLayers == CountOrElse(options.hiddenLayers, 2)
      ensures neuronsPerLayer == CountOrElse(options.neuronsPerLayer, 20)
      ensures learningRate == OrElse(options.learningRate, 0.01) && epochs == CountOrElse(options.epochs, 50)
      ensures network == InitialNetwork(hiddenLayers, neuronsPerLayer, draws, sqrt)
      ensures trainingHistory == [] && !isTraining && currentEpoch == 0
    {
      var layers := CountOrElse(options.hiddenLayers, 2);
      var n := CountOrElse(options.neuronsPerLayer, 20);
      hiddenLayers := layers;
      neuronsPerLayer := n;
      learningRate := OrElse(options.learningRate, 0.01);
      epochs := CountOrElse(options.epochs, 50);
      trainingHistory := [];
      isTraining := false;
      currentEpoch := 0;
      var net := BuildNetwork(layers, n, draws, sqrt);
      network := net;
    }

    /** initializeNetwork: a fresh network of the configured shape. */
    method InitializeNetwork(draws: NetworkDraws, sqrt: real -> real)
      modifies this
      ensures network == InitialNetwork(hiddenLayers, neuronsPerLayer, draws, sqrt)
      ensures Settings() == old(Settings()) && trainingHistory == old(trainingHistory)
      ensures isTraining == old(isTraining) && currentEpoch == old(currentEpoch)
      ensures old(Valid()) ==> Valid()
    {
      network := BuildNetwork(hiddenLayers, neuronsPerLayer, draws, sqrt);
    }

    /** One epoch of train: the epoch counter is set, then the shuffled
        samples update the network and the average loss is logged. `false`
        when a sample throws, which the first one then does, before any
        update. */
    method TrainEpoch(epoch: nat, trainingData: seq<Sample>, shuffle: (nat, seq<Sample>) -> seq<Sample>,
                      exp: real -> real, ghost start: Network) returns (completed: bool)
      requires Valid() && AllShaped(trainingData) && |trainingData| > 0 && PositiveExp(exp) && Shuffles(shuffle)
      requires Shaped(start, hiddenLayers, neuronsPerLayer)
      requires Epochs(start, hiddenLayers, neuronsPerLayer, learningRate, trainingData, shuffle, exp, epoch) ==
        Some((network, trainingHistory))
      modifies this
      ensures Valid() && Settings() == old(Settings()) && isTraining == old(isTraining) && currentEpoch == epoch
      ensures completed <==> !SampleFails(hiddenLayers, neuronsPerLayer)
      ensures !completed ==> network == old(network) && trainingHistory == old(trainingHistory)
      ensures completed ==>
        Epochs(start, hiddenLayers, neuronsPerLayer, learningRate, trainingData, shuffle, exp, epoch + 1) ==
          Some((network, trainingHistory))
    {
      currentEpoch := epoch;
      var result := NextEpoch(start, hiddenLayers, neuronsPerLayer, learningRate, trainingData, shuffle, exp, epoch,
                              network, trainingHistory);
      if result.None? {
        return false;
      }
      network, trainingHistory := result.value.0, result.value.1;
      completed := true;
    }

    /** train: a fresh log, 1000 generated samples, then epochs over a
        shuffled copy of them until the configured number has run or
        training was stopped during the pause after an epoch. An epoch that
        throws ends train with `isTraining` still set. */
    method Train(sampleDraws: nat -> SampleDraws, shuffle: (nat, seq<Sample>) -> seq<Sample>,
                 stopRequested: nat -> bool, exp: real -> real) returns (history: Option<seq<EpochRecord>>)
      requires Valid() && PositiveExp(exp) && Shuffles(shuffle)
      modifies this
      ensures Valid() && Settings() == old(Settings())
      ensures history.None? <==> epochs > 0 && SampleFails(hiddenLayers, neuronsPerLayer)
      ensures history.None? ==>
        isTraining && trainingHistory == [] && network == old(network) && currentEpoch == 0
      ensures history.Some? ==>
        !isTraining && history.value == trainingHistory &&
        |trainingHistory| == RoundsRun(epochs, stopRequested) &&
        currentEpoch == Max0(|trainingHistory| - 1) &&
        Epochs(old(network), hiddenLayers, neuronsPerLayer, learningRate, TrainingData(sampleDraws), shuffle, exp,
               |trainingHistory|) == Some((network, trainingHistory))
    {
      hide SampleFrom, EpochFrom, Learned;
      isTraining := true;
      currentEpoch := 0;
      trainingHistory := [];
      var trainingData := GenerateTrainingData(TrainingSamples, sampleDraws);
      assert trainingData == TrainingData(sampleDraws);
      ghost var start := network;
      var epoch := 0;
      while epoch < epochs && isTraining
        invariant Valid()
        invariant hiddenLayers == old(hiddenLayers) && neuronsPerLayer == old(neuronsPerLayer)
        invariant learningRate == old(learningRate) && epochs == old(epochs)
        invariant 0 <= epoch == |trainingHistory| <= Max0(epochs)
        invariant isTraining ==> RoundsFrom(epochs, stopRequested, epoch) == RoundsRun(epochs, stopRequested)
        invariant !isTraining ==> epoch == RoundsRun(epochs, stopRequested)
        invariant epoch == 0 ==> isTraining && network == start
        invariant currentEpoch == Max0(epoch - 1)
        invariant Epochs(start, hiddenLayers, neuronsPerLayer, learningRate, trainingData, shuffle, exp, epoch) ==
          Some((network, trainingHistory))
        decreases epochs - epoch
      {
        var completed := TrainEpoch(epoch, trainingData, shuffle, exp, start);
        if !completed {
          return None;
        }
        if stopRequested(epoch) {
          StopTraining();
        }
        epoch := epoch + 1;
      }
      isTraining := false;
      history := Some(trainingHistory);
    }

    /** stopTraining. */
    method StopTraining()
      modifies this
      ensures !isTraining
      ensures Settings() == old(Settings()) && network == old(network)
      ensures trainingHistory == old(trainingHistory) && currentEpoch == old(currentEpoch)
    {
      isTraining := false;
    }

    /** calculateControlForce: prepareInputs, forwardPass, defuzzifyOutput;
        `None` when forwardPass throws. */
    method CalculateControlForce(angle: real, angularVelocity: real, position: real, velocity: real,
                                 exp: real -> real) returns (force: Option<real>)
      requires Valid() && PositiveExp(exp)
      ensures force == NetworkForce(network, hiddenLayers, neuronsPerLayer, angle, angularVelocity, position, velocity, exp)
    {
      var inputs := PrepareInputs(angle, angularVelocity, position, velocity);
      var activations := ForwardPass(network, hiddenLayers, neuronsPerLayer, inputs, exp);
      if activations.None? {
        return None;
      }
      ForwardShape(network, hiddenLayers, neuronsPerLayer, inputs, exp);
      var controlForce := DefuzzifyOutput(activations.value.output);
      force := Some(controlForce);
    }
  }
}
