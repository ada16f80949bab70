/** The network as a value. A layer-size vector npl fixes the shape; a Net holds the
    activations x, the error signals dX, and the four per-neuron weight-length vectors
    w, deltaW, lastDeltaW and wCopy. Every operation of the trainer is a function from
    one Net to the next; the class in module Perceptron is proved against these. */
module NetworkModel {
  import opened NetworkMath

  /** Row j holds the vector of neuron j of a layer. */
  type Matrix = seq<seq<real>>

  datatype Net = Net(
    x: seq<seq<real>>,
    dX: seq<seq<real>>,
    w: seq<Matrix>,
    deltaW: seq<Matrix>,
    lastDeltaW: seq<Matrix>,
    wCopy: seq<Matrix>)

  /** Learning rate, momentum factor and whether the bias slot is used. */
  datatype Config = Config(eta: real, mu: real, bias: bool)

  /** The values the constructor of the trainer gives them. */
  const DefaultConfig := Config(0.1, 0.9, false)

  /** Patterns: nOfInputs inputs and nOfOutputs targets each. */
  datatype Dataset = Dataset(nOfInputs: nat, nOfOutputs: nat, inputs: seq<seq<real>>, outputs: seq<seq<real>>)
  {
    function NOfPatterns(): nat { |inputs| }

    ghost predicate Valid()
    {
      |outputs| == |inputs| &&
      forall p :: 0 <= p < |inputs| ==> |inputs[p]| == nOfInputs && |outputs[p]| == nOfOutputs
    }
  }

  /** Number of weight vectors of layer h: one per neuron, none in the input layer. */
  function Rows(npl: seq<nat>, h: nat): nat
    requires h < |npl|
  {
    if h == 0 then 0 else npl[h]
  }

  /** Length of a layer-h weight vector: one slot per neuron of layer h - 1, then the bias slot. */
  function Slots(npl: seq<nat>, h: nat): nat
    requires h < |npl|
  {
    if h == 0 then 0 else npl[h - 1] + 1
  }

  ghost predicate IsMatrix(m: Matrix, rows: nat, cols: nat)
  {
    |m| == rows && forall j :: 0 <= j < rows ==> |m[j]| == cols
  }

  ghost predicate WeightsShaped(npl: seq<nat>, ws: seq<Matrix>)
  {
    |ws| == |npl| && forall h {:trigger ws[h]} :: 0 <= h < |npl| ==> IsMatrix(ws[h], Rows(npl, h), Slots(npl, h))
  }

  /** One vector of npl[h] values per layer h. */
  ghost predicate VectorsShaped(npl: seq<nat>, v: seq<seq<real>>)
  {
    |v| == |npl| && forall h {:trigger v[h]} :: 0 <= h < |npl| ==> |v[h]| == npl[h]
  }

  /** The shape that initialize builds and every later operation keeps. */
  ghost predicate Shaped(npl: seq<nat>, n: Net)
  {
    VectorsShaped(npl, n.x) && VectorsShaped(npl, n.dX) &&
    WeightsShaped(npl, n.w) && WeightsShaped(npl, n.deltaW) &&
    WeightsShaped(npl, n.lastDeltaW) && WeightsShaped(npl, n.wCopy)
  }

  /** The training data fit a network of layer sizes npl. */
  ghost predicate Fits(npl: seq<nat>, d: Dataset)
  {
    |npl| > 0 && d.Valid() && d.nOfInputs == npl[0] && d.nOfOutputs == npl[|npl| - 1]
  }

  /** Slot i of a weight-length vector with m connections takes part in training:
      a connection, or the bias slot when the bias is on. */
  predicate Trained(i: nat, m: nat, bias: bool)
  {
    i < m || bias
  }

  // ---------------------------------------------------------------------------
  // One layer

  /** deltaW of one layer after the reset at the start of performEpochOnline. */
  function ZeroLayer(dW: Matrix, m: nat, bias: bool): (r: Matrix)
    requires forall j :: 0 <= j < |dW| ==> |dW[j]| == m + 1
    ensures IsMatrix(r, |dW|, m + 1)
  {
    seq(|dW|, j requires 0 <= j < |dW| =>
      seq(m + 1, i requires 0 <= i < m + 1 => if Trained(i, m, bias) then 0.0 else dW[j][i]))
  }

  /** deltaW of one layer after accumulateChange: signal times upstream activation,
      and times 1.0 in the bias slot when the bias is on. */
  function AccumulateLayer(dW: Matrix, d: seq<real>, prev: seq<real>, bias: bool): (r: Matrix)
    requires |d| == |dW|
    requires forall j :: 0 <= j < |dW| ==> |dW[j]| == |prev| + 1
    ensures IsMatrix(r, |dW|, |prev| + 1)
  {
    seq(|dW|, j requires 0 <= j < |dW| =>
      seq(|prev| + 1, i requires 0 <= i < |prev| + 1 =>
        if i < |prev| then dW[j][i] + Contribution(d[j], prev[i])
        else if bias then dW[j][i] + d[j]
        else dW[j][i]))
  }

  /** w of one layer after weightAdjustment: the momentum rule on every trained slot. */
  function AdjustLayer(wh: Matrix, dW: Matrix, last: Matrix, m: nat, c: Config): (r: Matrix)
    requires IsMatrix(wh, |wh|, m + 1) && IsMatrix(dW, |wh|, m + 1) && IsMatrix(last, |wh|, m + 1)
    ensures IsMatrix(r, |wh|, m + 1)
  {
    seq(|wh|, j requires 0 <= j < |wh| =>
      seq(m + 1, i requires 0 <= i < m + 1 =>
        if Trained(i, m, c.bias)
        then MomentumUpdate(wh[j][i], dW[j][i], last[j][i], c.eta, c.mu)
        else wh[j][i]))
  }

  /** lastDeltaW of one layer after weightAdjustment: the change just applied. */
  function RememberLayer(dW: Matrix, last: Matrix, m: nat, bias: bool): (r: Matrix)
    requires IsMatrix(dW, |dW|, m + 1) && IsMatrix(last, |dW|, m + 1)
    ensures IsMatrix(r, |dW|, m + 1)
  {
    seq(|dW|, j requires 0 <= j < |dW| =>
      seq(m + 1, i requires 0 <= i < m + 1 => if Trained(i, m, bias) then dW[j][i] else last[j][i]))
  }

  // ---------------------------------------------------------------------------
  // The whole network

  /** feedInputs: the input layer takes the pattern's inputs. */
  function FeedInputs(npl: seq<nat>, n: Net, input: seq<real>): (r: Net)
    requires Shaped(npl, n) && |npl| > 0 && |input| == npl[0]
    ensures Shaped(npl, r)
  {
    n.(x := n.x[0 := input])
  }

  /** Activations of layer h when layer 0 holds x0: layer h - 1 pushed through the sigmoid. */
  function Activation(npl: seq<nat>, x0: seq<real>, ws: seq<Matrix>, bias: bool, sigma: real -> real, h: nat): (r: seq<real>)
    requires WeightsShaped(npl, ws) && |npl| > 0 && |x0| == npl[0] && h < |npl|
    ensures |r| == npl[h]
  {
    if h == 0 then x0
    else LayerOut(ws[h], Activation(npl, x0, ws, bias, sigma, h - 1), bias, sigma)
  }

  /** forwardPropagate: layers 1 .. L-1 recomputed in increasing order. */
  function Forward(npl: seq<nat>, n: Net, bias: bool, sigma: real -> real): (r: Net)
    requires Shaped(npl, n)
    ensures Shaped(npl, r)
  {
    n.(x := seq(|npl|, h requires 0 <= h < |npl| => Activation(npl, n.x[0], n.w, bias, sigma, h)))
  }

  /** Error signals of layer h: the output formula in the last layer, the backpropagated
      sum in the hidden layers below it. */
  function Delta(npl: seq<nat>, xs: seq<seq<real>>, ws: seq<Matrix>, target: seq<real>, h: nat): (r: seq<real>)
    requires VectorsShaped(npl, xs) && WeightsShaped(npl, ws) && |npl| > 0 && |target| == npl[|npl| - 1]
    requires h < |npl| && (h > 0 || |npl| == 1)
    ensures |r| == npl[h]
    decreases |npl| - h
  {
    if h == |npl| - 1 then OutputDeltas(target, xs[h])
    else HiddenDeltas(ws[h + 1], Delta(npl, xs, ws, target, h + 1), xs[h])
  }

  /** backpropagateError: the output layer, then layers L-2 down to 1. */
  function Backpropagate(npl: seq<nat>, n: Net, target: seq<real>): (r: Net)
    requires Shaped(npl, n) && |npl| > 0 && |target| == npl[|npl| - 1]
    ensures Shaped(npl, r)
  {
    n.(dX := seq(|npl|, h requires 0 <= h < |npl| =>
      if h == 0 && |npl| > 1 then n.dX[0] else Delta(npl, n.x, n.w, target, h)))
  }

  /** The deltaW reset that opens performEpochOnline. */
  function ZeroGradients(npl: seq<nat>, n: Net, bias: bool): (r: Net)
    requires Shaped(npl, n)
    ensures Shaped(npl, r)
  {
    n.(deltaW := ZeroLayers(npl, n.deltaW, bias))
  }

  /** deltaW of every layer after the reset. */
  function ZeroLayers(npl: seq<nat>, dW: seq<Matrix>, bias: bool): (r: seq<Matrix>)
    requires WeightsShaped(npl, dW)
    ensures WeightsShaped(npl, r)
  {
    seq(|npl|, h requires 0 <= h < |npl| =>
      if h == 0 then dW[0] else ZeroLayer(dW[h], npl[h - 1], bias))
  }

  /** deltaW of every layer after accumulateChange, with signals dX over activations x. */
  function AccumulateLayers(npl: seq<nat>, dW: seq<Matrix>, dX: seq<seq<real>>, x: seq<seq<real>>, bias: bool): (r: seq<Matrix>)
    requires WeightsShaped(npl, dW) && VectorsShaped(npl, dX) && VectorsShaped(npl, x)
    ensures WeightsShaped(npl, r)
  {
    seq(|npl|, h requires 0 <= h < |npl| =>
      if h == 0 then dW[0] else AccumulateLayer(dW[h], dX[h], x[h - 1], bias))
  }

  /** accumulateChange. */
  function Accumulate(npl: seq<nat>, n: Net, bias: bool): (r: Net)
    requires Shaped(npl, n)
    ensures Shaped(npl, r)
  {
    n.(deltaW := AccumulateLayers(npl, n.deltaW, n.dX, n.x, bias))
  }

  /** w of every layer after weightAdjustment. */
  function AdjustLayers(npl: seq<nat>, w: seq<Matrix>, dW: seq<Matrix>, last: seq<Matrix>, c: Config): (r: seq<Matrix>)
    requires WeightsShaped(npl, w) && WeightsShaped(npl, dW) && WeightsShaped(npl, last)
    ensures WeightsShaped(npl, r)
  {
    seq(|npl|, h requires 0 <= h < |npl| =>
      if h == 0 then w[0] else AdjustLayer(w[h], dW[h], last[h], npl[h - 1], c))
  }

  /** lastDeltaW of every layer after weightAdjustment. */
  function RememberLayers(npl: seq<nat>, dW: seq<Matrix>, last: seq<Matrix>, bias: bool): (r: seq<Matrix>)
    requires WeightsShaped(npl, dW) && WeightsShaped(npl, last)
    ensures WeightsShaped(npl, r)
  {
    seq(|npl|, h requires 0 <= h < |npl| =>
      if h == 0 then last[0] else RememberLayer(dW[h], last[h], npl[h - 1], bias))
  }

  /** weightAdjustment. */
  function Adjust(npl: seq<nat>, n: Net, c: Config): (r: Net)
    requires Shaped(npl, n)
    ensures Shaped(npl, r)
  {
    n.(w := AdjustLayers(npl, n.w, n.deltaW, n.lastDeltaW, c),
       lastDeltaW := RememberLayers(npl, n.deltaW, n.lastDeltaW, c.bias))
  }

  /** copyWeights: the snapshot takes the weights, and nothing else moves. */
  function CopyWeights(n: Net): (r: Net)
    ensures r.wCopy == r.w == n.w
    ensures r.(wCopy := n.wCopy) == n
  {
    n.(wCopy := n.w)
  }

  /** restoreWeights: the weights go back to the snapshot, and nothing else moves. */
  function RestoreWeights(n: Net): (r: Net)
    ensures r.w == r.wCopy == n.wCopy
    ensures r.(w := n.w) == n
  {
    n.(w := n.wCopy)
  }

  /** performEpochOnline: reset deltaW, then feed, forward, backpropagate, accumulate, adjust. */
  function OnlineStep(npl: seq<nat>, n: Net, input: seq<real>, target: seq<real>, c: Config, sigma: real -> real): (r: Net)
    requires Shaped(npl, n) && |npl| > 0 && |input| == npl[0] && |target| == npl[|npl| - 1]
    ensures Shaped(npl, r)
    ensures r.wCopy == n.wCopy
  {
    var fed := FeedInputs(npl, ZeroGradients(npl, n, c.bias), input);
    var forwarded := Forward(npl, fed, c.bias, sigma);
    var signalled := Backpropagate(npl, forwarded, target);
    Adjust(npl, Accumulate(npl, signalled, c.bias), c)
  }

  /** trainOnline over the first k patterns of d. */
  function TrainOnline(npl: seq<nat>, n: Net, d: Dataset, c: Config, sigma: real -> real, k: nat): (r: Net)
    requires Shaped(npl, n) && Fits(npl, d) && k <= d.NOfPatterns()
    ensures Shaped(npl, r)
    ensures r.wCopy == n.wCopy
    decreases k, 1
  {
    if k == 0 then n else TrainOnlineLast(npl, n, d, c, sigma, k)
  }

  /** The last of the first k patterns of trainOnline: performEpochOnline on pattern k - 1,
      from where the patterns before it left the network. */
  function TrainOnlineLast(npl: seq<nat>, n: Net, d: Dataset, c: Config, sigma: real -> real, k: nat): (r: Net)
    requires Shaped(npl, n) && Fits(npl, d) && 0 < k <= d.NOfPatterns()
    ensures Shaped(npl, r)
    ensures r.wCopy == n.wCopy
    decreases k, 0
  {
    OnlineStep(npl, TrainOnline(npl, n, d, c, sigma, k - 1), d.inputs[k - 1], d.outputs[k - 1], c, sigma)
  }

  /** Pattern k of trainOnline is one more performEpochOnline. */
  lemma TrainOnlineNext(npl: seq<nat>, n: Net, d: Dataset, c: Config, sigma: real -> real, k: nat)
    requires Shaped(npl, n) && Fits(npl, d) && k < d.NOfPatterns()
    ensures TrainOnline(npl, n, d, c, sigma, k + 1) ==
            OnlineStep(npl, TrainOnline(npl, n, d, c, sigma, k), d.inputs[k], d.outputs[k], c, sigma)
  {
  }

  /** obtainError after feeding one pattern and propagating it with weights ws. */
  function PatternError(npl: seq<nat>, ws: seq<Matrix>, bias: bool, sigma: real -> real, input: seq<real>, target: seq<real>): (r: real)
    requires WeightsShaped(npl, ws) && |npl| > 0 && |input| == npl[0]
    requires |target| == npl[|npl| - 1] && npl[|npl| - 1] > 0
    ensures r >= 0.0
  {
    MeanSquaredError(target, Activation(npl, input, ws, bias, sigma, |npl| - 1))
  }

  /** The per-pattern errors of a data set. */
  function PatternErrors(npl: seq<nat>, ws: seq<Matrix>, bias: bool, sigma: real -> real, d: Dataset): (r: seq<real>)
    requires WeightsShaped(npl, ws) && Fits(npl, d) && npl[|npl| - 1] > 0
    ensures |r| == d.NOfPatterns()
  {
    seq(d.NOfPatterns(), p requires 0 <= p < d.NOfPatterns() =>
      PatternError(npl, ws, bias, sigma, d.inputs[p], d.outputs[p]))
  }

  /** The running sum of test after its first k patterns. */
  function TestSum(npl: seq<nat>, ws: seq<Matrix>, bias: bool, sigma: real -> real, d: Dataset, k: nat): (r: real)
    requires WeightsShaped(npl, ws) && Fits(npl, d) && npl[|npl| - 1] > 0 && k <= d.NOfPatterns()
    ensures r >= 0.0
    decreases k, 1
  {
    if k == 0 then 0.0 else TestSumLast(npl, ws, bias, sigma, d, k)
  }

  /** The running sum after pattern k - 1: the sum before it plus its obtainError. */
  function TestSumLast(npl: seq<nat>, ws: seq<Matrix>, bias: bool, sigma: real -> real, d: Dataset, k: nat): (r: real)
    requires WeightsShaped(npl, ws) && Fits(npl, d) && npl[|npl| - 1] > 0 && 0 < k <= d.NOfPatterns()
    ensures r >= PatternError(npl, ws, bias, sigma, d.inputs[k - 1], d.outputs[k - 1])
    decreases k, 0
  {
    TestSum(npl, ws, bias, sigma, d, k - 1) + PatternError(npl, ws, bias, sigma, d.inputs[k - 1], d.outputs[k - 1])
  }

  /** test: obtainError accumulated over the patterns, divided by their number. */
  function TestError(npl: seq<nat>, ws: seq<Matrix>, bias: bool, sigma: real -> real, d: Dataset): (r: real)
    requires WeightsShaped(npl, ws) && Fits(npl, d) && npl[|npl| - 1] > 0 && d.NOfPatterns() > 0
    ensures r >= 0.0
  {
    TestSum(npl, ws, bias, sigma, d, d.NOfPatterns()) / d.NOfPatterns() as real
  }

  /** Pattern k of test adds its obtainError to the running sum. */
  lemma TestSumNext(npl: seq<nat>, ws: seq<Matrix>, bias: bool, sigma: real -> real, d: Dataset, k: nat)
    requires WeightsShaped(npl, ws) && Fits(npl, d) && npl[|npl| - 1] > 0 && k < d.NOfPatterns()
    ensures TestSum(npl, ws, bias, sigma, d, k + 1) ==
            TestSum(npl, ws, bias, sigma, d, k) + PatternError(npl, ws, bias, sigma, d.inputs[k], d.outputs[k])
  {
  }

  /** The running sum is the sum of the per-pattern errors so far. */
  lemma {:induction false} TestSumSpec(npl: seq<nat>, ws: seq<Matrix>, bias: bool, sigma: real -> real, d: Dataset, k: nat)
    requires WeightsShaped(npl, ws) && Fits(npl, d) && npl[|npl| - 1] > 0 && k <= d.NOfPatterns()
    ensures TestSum(npl, ws, bias, sigma, d, k) == Sum(PatternErrors(npl, ws, bias, sigma, d)[..k])
  {
    var errs := PatternErrors(npl, ws, bias, sigma, d);
    if k == 0 {
      assert errs[..0] == [];
    } else {
      TestSumSpec(npl, ws, bias, sigma, d, k - 1);
      SumPrefix(errs, k - 1);
    }
  }

  /** test is the mean of the per-pattern errors. */
  lemma TestErrorMean(npl: seq<nat>, ws: seq<Matrix>, bias: bool, sigma: real -> real, d: Dataset)
    requires WeightsShaped(npl, ws) && Fits(npl, d) && npl[|npl| - 1] > 0 && d.NOfPatterns() > 0
    ensures TestError(npl, ws, bias, sigma, d) == Mean(PatternErrors(npl, ws, bias, sigma, d))
  {
    var errs := PatternErrors(npl, ws, bias, sigma, d);
    TestSumSpec(npl, ws, bias, sigma, d, d.NOfPatterns());
    assert errs[..d.NOfPatterns()] == errs;
  }

  // ---------------------------------------------------------------------------
  // The training run

  /** One epoch of runOnlineBackPropagation: trainOnline over the whole data set. */
  function Epoch(npl: seq<nat>, n: Net, d: Dataset, c: Config, sigma: real -> real): (r: Net)
    requires Shaped(npl, n) && Fits(npl, d)
    ensures Shaped(npl, r)
    ensures r.wCopy == n.wCopy
  {
    TrainOnline(npl, n, d, c, sigma, d.NOfPatterns())
  }

  /** next is where the epoch after prev starts: what prev's epoch left, except for the
      activations, which measuring the training error overwrites, and the snapshot, which
      copyWeights may have taken. */
  ghost predicate Continues(npl: seq<nat>, prev: Net, next: Net, d: Dataset, c: Config, sigma: real -> real)
    requires Shaped(npl, prev) && Fits(npl, d)
  {
    next == Epoch(npl, prev, d, c, sigma).(x := next.x, wCopy := next.wCopy)
  }

  /** The epochs of a training run from start: nets[i] is the network at the start of epoch
      i, hist[i] the weights its trainOnline left and errs[i] their error on the training set. */
  ghost predicate Run(npl: seq<nat>, start: Net, d: Dataset, c: Config, sigma: real -> real,
                      nets: seq<Net>, hist: seq<seq<Matrix>>, errs: seq<real>)
    decreases |nets|, 1
  {
    Fits(npl, d) && npl[|npl| - 1] > 0 && d.NOfPatterns() > 0 &&
    |nets| == |errs| && |hist| == |errs| &&
    (nets != [] ==> RunLast(npl, start, d, c, sigma, nets, hist, errs))
  }

  /** A non-empty run: the run of the epochs before the last one, and the last epoch, which
      starts at start or where the one before it left off. */
  ghost predicate RunLast(npl: seq<nat>, start: Net, d: Dataset, c: Config, sigma: real -> real,
                          nets: seq<Net>, hist: seq<seq<Matrix>>, errs: seq<real>)
    requires Fits(npl, d) && npl[|npl| - 1] > 0 && d.NOfPatterns() > 0
    requires 0 < |nets| && |nets| == |errs| && |hist| == |errs|
    decreases |nets|, 0
  {
    var k := |nets| - 1;
    Run(npl, start, d, c, sigma, nets[..k], hist[..k], errs[..k]) &&
    Shaped(npl, nets[k]) &&
    (if k == 0 then nets[k] == start else Shaped(npl, nets[k - 1]) && Continues(npl, nets[k - 1], nets[k], d, c, sigma)) &&
    hist[k] == Epoch(npl, nets[k], d, c, sigma).w &&
    errs[k] == TestError(npl, hist[k], c.bias, sigma, d)
  }

  /** A run goes on with one more epoch from where the last one left off. */
  lemma RunSnoc(npl: seq<nat>, start: Net, d: Dataset, c: Config, sigma: real -> real,
                nets: seq<Net>, hist: seq<seq<Matrix>>, errs: seq<real>, n: Net)
    requires Run(npl, start, d, c, sigma, nets, hist, errs) && Shaped(npl, n)
    requires nets == [] ==> n == start
    requires nets != [] ==> Shaped(npl, nets[|nets| - 1]) && Continues(npl, nets[|nets| - 1], n, d, c, sigma)
    ensures var ws := Epoch(npl, n, d, c, sigma).w;
      Run(npl, start, d, c, sigma, nets + [n], hist + [ws], errs + [TestError(npl, ws, c.bias, sigma, d)])
  {
    var ws := Epoch(npl, n, d, c, sigma).w;
    var nets', hist', errs' := nets + [n], hist + [ws], errs + [TestError(npl, ws, c.bias, sigma, d)];
    assert nets'[..|nets|] == nets && hist'[..|nets|] == hist && errs'[..|nets|] == errs;
  }

  /** Taking the snapshot after an epoch does not break the chain: Continues ignores wCopy. */
  lemma ContinuesSnapshot(npl: seq<nat>, prev: Net, next: Net, d: Dataset, c: Config, sigma: real -> real, v: seq<Matrix>)
    requires Shaped(npl, prev) && Fits(npl, d) && Continues(npl, prev, next, d, c, sigma)
    ensures Continues(npl, prev, next.(wCopy := v), d, c, sigma)
  {
  }

  // ---------------------------------------------------------------------------
  // What the operations mean

  /** Forward recomputes each layer from the one below it, and nothing but x changes. */
  lemma ForwardLayers(npl: seq<nat>, n: Net, bias: bool, sigma: real -> real, h: nat)
    requires Shaped(npl, n) && |npl| > 0 && 0 < h < |npl|
    ensures Forward(npl, n, bias, sigma).x[0] == n.x[0]
    ensures Forward(npl, n, bias, sigma).x[h] == LayerOut(n.w[h], Forward(npl, n, bias, sigma).x[h - 1], bias, sigma)
    ensures Forward(npl, n, bias, sigma).(x := n.x) == n
  {
  }

  /** The activations are determined by the inputs and the weights alone: any x with the
      input layer of n in which every layer is the sigmoid of the one below is Forward's. */
  lemma {:induction false} ForwardUnique(npl: seq<nat>, n: Net, bias: bool, sigma: real -> real, xs: seq<seq<real>>)
    requires Shaped(npl, n) && |npl| > 0 && |xs| == |npl| && xs[0] == n.x[0]
    requires forall h :: 0 <= h < |npl| ==> |xs[h]| == npl[h]
    requires forall h :: 0 < h < |npl| ==> xs[h] == LayerOut(n.w[h], xs[h - 1], bias, sigma)
    ensures xs == Forward(npl, n, bias, sigma).x
  {
    forall h | 0 <= h < |npl|
      ensures xs[h] == Activation(npl, n.x[0], n.w, bias, sigma, h)
    {
      ActivationMatches(npl, n, bias, sigma, xs, h);
    }
  }

  lemma {:induction false} ActivationMatches(npl: seq<nat>, n: Net, bias: bool, sigma: real -> real, xs: seq<seq<real>>, h: nat)
    requires Shaped(npl, n) && |npl| > 0 && |xs| == |npl| && xs[0] == n.x[0]
    requires forall k :: 0 <= k < |npl| ==> |xs[k]| == npl[k]
    requires forall k :: 0 < k < |npl| ==> xs[k] == LayerOut(n.w[k], xs[k - 1], bias, sigma)
    requires h < |npl|
    ensures xs[h] == Activation(npl, n.x[0], n.w, bias, sigma, h)
  {
    if h > 0 {
      ActivationMatches(npl, n, bias, sigma, xs, h - 1);
    }
  }

  /** With a sigmoid whose values lie in (0, 1), so do all activations above the input layer. */
  lemma {:induction false} ForwardInUnitInterval(npl: seq<nat>, n: Net, bias: bool, sigma: real -> real, h: nat, j: nat)
    requires Shaped(npl, n) && |npl| > 0 && 0 < h < |npl| && j < npl[h]
    requires forall s :: 0.0 < sigma(s) < 1.0
    ensures 0.0 < Forward(npl, n, bias, sigma).x[h][j] < 1.0
  {
    var prev := Activation(npl, n.x[0], n.w, bias, sigma, h - 1);
    assert Forward(npl, n, bias, sigma).x[h][j] == sigma(NetInput(n.w[h][j], prev, bias));
  }

  /** Backpropagate: output signals from the targets, hidden ones from the layer above,
      layer 0 untouched when there is a hidden layer, and nothing but dX changes. */
  lemma BackpropagateLayers(npl: seq<nat>, n: Net, target: seq<real>)
    requires Shaped(npl, n) && |npl| > 0 && |target| == npl[|npl| - 1]
    ensures var r := Backpropagate(npl, n, target);
      r.dX[|npl| - 1] == OutputDeltas(target, n.x[|npl| - 1]) &&
      (forall h :: 0 < h < |npl| - 1 ==> r.dX[h] == HiddenDeltas(n.w[h + 1], r.dX[h + 1], n.x[h])) &&
      (|npl| > 1 ==> r.dX[0] == n.dX[0]) &&
      r.(dX := n.dX) == n
  {
  }

  /** After the reset and accumulateChange, deltaW holds the contribution of exactly one
      pattern; with the bias off the bias slot keeps what it held before the reset. */
  lemma AccumulateFromZero(npl: seq<nat>, base: Net, n: Net, bias: bool, h: nat, j: nat, i: nat)
    requires Shaped(npl, base) && Shaped(npl, n) && 0 < h < |npl| && j < npl[h] && i <= npl[h - 1]
    requires n.deltaW == ZeroGradients(npl, base, bias).deltaW
    ensures Accumulate(npl, n, bias).deltaW[h][j][i] ==
        if i < npl[h - 1] then Contribution(n.dX[h][j], n.x[h - 1][i])
        else if bias then n.dX[h][j]
        else base.deltaW[h][j][i]
  {
    var m := npl[h - 1];
    assert n.deltaW[h] == ZeroLayer(base.deltaW[h], m, bias);
    var zero := n.deltaW[h][j][i];
    assert zero == if Trained(i, m, bias) then 0.0 else base.deltaW[h][j][i];
    var r := Accumulate(npl, n, bias);
    assert r.deltaW[h] == AccumulateLayer(n.deltaW[h], n.dX[h], n.x[h - 1], bias);
    AccumulateLayerAt(n.deltaW[h], n.dX[h], n.x[h - 1], bias, j, i);
  }

  lemma AccumulateLayerAt(dW: Matrix, d: seq<real>, prev: seq<real>, bias: bool, j: nat, i: nat)
    requires |d| == |dW| && j < |dW| && i <= |prev|
    requires forall j :: 0 <= j < |dW| ==> |dW[j]| == |prev| + 1
    ensures AccumulateLayer(dW, d, prev, bias)[j][i] ==
      if i < |prev| then dW[j][i] + Contribution(d[j], prev[i])
      else if bias then dW[j][i] + d[j]
      else dW[j][i]
  {
  }

  /** weightAdjustment leaves deltaW alone, makes lastDeltaW equal to deltaW on every trained
      slot, and changes neither w nor lastDeltaW outside the trained slots. */
  lemma AdjustSlots(npl: seq<nat>, n: Net, c: Config, h: nat, j: nat, i: nat)
    requires Shaped(npl, n) && 0 < h < |npl| && j < npl[h] && i <= npl[h - 1]
    ensures var r := Adjust(npl, n, c);
      r.deltaW == n.deltaW && r.x == n.x && r.dX == n.dX && r.wCopy == n.wCopy &&
      (Trained(i, npl[h - 1], c.bias) ==> r.lastDeltaW[h][j][i] == n.deltaW[h][j][i]) &&
      (Trained(i, npl[h - 1], c.bias) ==>
         r.w[h][j][i] == MomentumUpdate(n.w[h][j][i], n.deltaW[h][j][i], n.lastDeltaW[h][j][i], c.eta, c.mu)) &&
      (!Trained(i, npl[h - 1], c.bias) ==> r.w[h][j][i] == n.w[h][j][i] && r.lastDeltaW[h][j][i] == n.lastDeltaW[h][j][i])
  {
  }

  /** copyWeights then restoreWeights gives back the same weights, and nothing else moves. */
  lemma CopyThenRestore(n: Net)
    ensures RestoreWeights(CopyWeights(n)) == CopyWeights(n)
    ensures RestoreWeights(CopyWeights(n)).w == n.w
    ensures CopyWeights(n).(wCopy := n.wCopy) == n
  {
  }

  /** After restoreWeights the weights are the snapshot, and only w changed. */
  lemma RestoreTakesSnapshot(n: Net)
    ensures RestoreWeights(n).w == n.wCopy
    ensures RestoreWeights(n).(w := n.w) == n
  {
  }

  /** One online step leaves in x the activations that the pattern's input produces with
      the weights the step started from. */
  lemma OnlineStepActivations(npl: seq<nat>, n: Net, input: seq<real>, target: seq<real>, c: Config, sigma: real -> real, h: nat)
    requires Shaped(npl, n) && |npl| > 0 && |input| == npl[0] && |target| == npl[|npl| - 1]
    requires h < |npl|
    ensures OnlineStep(npl, n, input, target, c, sigma).x[h] == Activation(npl, input, n.w, c.bias, sigma, h)
  {
    var fed := FeedInputs(npl, ZeroGradients(npl, n, c.bias), input);
    assert fed.w == n.w && fed.x[0] == input;
    var forwarded := Forward(npl, fed, c.bias, sigma);
    var signalled := Backpropagate(npl, forwarded, target);
    assert signalled.x == forwarded.x;
    var accumulated := Accumulate(npl, signalled, c.bias);
    assert accumulated.x == forwarded.x;
  }

  /** One online step, slot by slot: deltaW holds the gradient of this one pattern, the
      change applied is remembered in lastDeltaW, and a slot that is not trained (the bias
      slot with the bias off) keeps its w, deltaW and lastDeltaW. */
  lemma OnlineStepSlot(npl: seq<nat>, n: Net, input: seq<real>, target: seq<real>, c: Config, sigma: real -> real, h: nat, j: nat, i: nat)
    requires Shaped(npl, n) && |npl| > 0 && |input| == npl[0] && |target| == npl[|npl| - 1]
    requires 0 < h < |npl| && j < npl[h] && i <= npl[h - 1]
    ensures var r := OnlineStep(npl, n, input, target, c, sigma);
      r.deltaW[h][j][i] ==
        (if i < npl[h - 1] then Contribution(r.dX[h][j], r.x[h - 1][i])
         else if c.bias then r.dX[h][j]
         else n.deltaW[h][j][i]) &&
      (Trained(i, npl[h - 1], c.bias) ==> r.lastDeltaW[h][j][i] == r.deltaW[h][j][i]) &&
      (!Trained(i, npl[h - 1], c.bias) ==> r.w[h][j][i] == n.w[h][j][i] && r.lastDeltaW[h][j][i] == n.lastDeltaW[h][j][i])
  {
    var zeroed := ZeroGradients(npl, n, c.bias);
    var fed := FeedInputs(npl, zeroed, input);
    var forwarded := Forward(npl, fed, c.bias, sigma);
    var signalled := Backpropagate(npl, forwarded, target);
    assert signalled.deltaW == zeroed.deltaW && signalled.w == n.w && signalled.lastDeltaW == n.lastDeltaW;
    var accumulated := Accumulate(npl, signalled, c.bias);
    AccumulateFromZero(npl, n, signalled, c.bias, h, j, i);
    AdjustSlots(npl, accumulated, c, h, j, i);
  }

  /** deltaW, x, dX and wCopy play no part in the weight error of a pattern. */
  lemma PatternErrorSpec(npl: seq<nat>, n: Net, bias: bool, sigma: real -> real, input: seq<real>, target: seq<real>)
    requires Shaped(npl, n) && |npl| > 0 && |input| == npl[0]
    requires |target| == npl[|npl| - 1] && npl[|npl| - 1] > 0
    ensures PatternError(npl, n.w, bias, sigma, input, target) ==
            MeanSquaredError(target, Forward(npl, FeedInputs(npl, n, input), bias, sigma).x[|npl| - 1])
    ensures PatternError(npl, n.w, bias, sigma, input, target) >= 0.0
  {
    MeanSquaredErrorSpec(target, Activation(npl, input, n.w, bias, sigma, |npl| - 1));
  }

  /** test is never negative, and zero exactly when the network reproduces every target. */
  lemma TestErrorSpec(npl: seq<nat>, ws: seq<Matrix>, bias: bool, sigma: real -> real, d: Dataset)
    requires WeightsShaped(npl, ws) && Fits(npl, d) && npl[|npl| - 1] > 0 && d.NOfPatterns() > 0
    ensures TestError(npl, ws, bias, sigma, d) >= 0.0
    ensures TestError(npl, ws, bias, sigma, d) == 0.0 <==>
      forall p :: 0 <= p < d.NOfPatterns() ==> Activation(npl, d.inputs[p], ws, bias, sigma, |npl| - 1) == d.outputs[p]
  {
    var errs := PatternErrors(npl, ws, bias, sigma, d);
    forall p | 0 <= p < |errs|
      ensures errs[p] >= 0.0
      ensures errs[p] == 0.0 <==> Activation(npl, d.inputs[p], ws, bias, sigma, |npl| - 1) == d.outputs[p]
    {
      MeanSquaredErrorSpec(d.outputs[p], Activation(npl, d.inputs[p], ws, bias, sigma, |npl| - 1));
    }
    MeanNonNegative(errs);
    TestErrorMean(npl, ws, bias, sigma, d);
  }
}
