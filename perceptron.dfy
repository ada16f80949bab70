/** The trainer itself: a network whose activations, error signals and weight vectors live
    in arrays that its methods update in place. Every method is proved to move the network
    from one value of the model in NetworkModel to the next. */
module Perceptron {
  import opened NetworkMath
  import opened NetworkModel
  import opened WeightLayout
  import opened EarlyStopping

  /** Distinct positions of a hold distinct arrays. */
  ghost predicate Injective<T>(a: seq<T>)
  {
    forall h, k :: 0 <= h < |a| && 0 <= k < |a| && h != k ==> a[h] != a[k]
  }

  /** No array of a is an array of b. */
  ghost predicate Apart<T>(a: seq<T>, b: seq<T>)
  {
    forall h, k :: 0 <= h < |a| && 0 <= k < |b| ==> a[h] != b[k]
  }

  lemma InjectiveSnoc<T>(a: seq<T>, v: T)
    requires Injective(a) && v !in a
    ensures Injective(a + [v])
  {
  }

  lemma ApartSnoc<T>(a: seq<T>, b: seq<T>, u: T, v: T)
    requires Apart(a, b) && u !in b && v !in a && u != v
    ensures Apart(a + [u], b + [v])
  {
  }

  /** Every array of the network is its own: no two of them are the same. */
  ghost predicate AllApart(x: seq<array<real>>, dX: seq<array<real>>,
                           w: seq<array2<real>>, deltaW: seq<array2<real>>,
                           lastDeltaW: seq<array2<real>>, wCopy: seq<array2<real>>)
  {
    Injective(x) && Injective(dX) && Apart(x, dX) &&
    Injective(w) && Injective(deltaW) && Injective(lastDeltaW) && Injective(wCopy) &&
    Apart(w, deltaW) && Apart(w, lastDeltaW) && Apart(w, wCopy) &&
    Apart(deltaW, lastDeltaW) && Apart(deltaW, wCopy) && Apart(lastDeltaW, wCopy)
  }

  lemma AllApartSnoc(x: seq<array<real>>, dX: seq<array<real>>,
                     w: seq<array2<real>>, deltaW: seq<array2<real>>,
                     lastDeltaW: seq<array2<real>>, wCopy: seq<array2<real>>,
                     x1: array<real>, dX1: array<real>,
                     w1: array2<real>, deltaW1: array2<real>, lastDeltaW1: array2<real>, wCopy1: array2<real>)
    requires AllApart(x, dX, w, deltaW, lastDeltaW, wCopy)
    requires x1 !in x && x1 !in dX && dX1 !in x && dX1 !in dX && x1 != dX1
    requires w1 !in w && w1 !in deltaW && w1 !in lastDeltaW && w1 !in wCopy
    requires deltaW1 !in w && deltaW1 !in deltaW && deltaW1 !in lastDeltaW && deltaW1 !in wCopy
    requires lastDeltaW1 !in w && lastDeltaW1 !in deltaW && lastDeltaW1 !in lastDeltaW && lastDeltaW1 !in wCopy
    requires wCopy1 !in w && wCopy1 !in deltaW && wCopy1 !in lastDeltaW && wCopy1 !in wCopy
    requires w1 != deltaW1 && w1 != lastDeltaW1 && w1 != wCopy1
    requires deltaW1 != lastDeltaW1 && deltaW1 != wCopy1 && lastDeltaW1 != wCopy1
    ensures AllApart(x + [x1], dX + [dX1], w + [w1], deltaW + [deltaW1], lastDeltaW + [lastDeltaW1], wCopy + [wCopy1])
  {
    InjectiveSnoc(x, x1);
    InjectiveSnoc(dX, dX1);
    ApartSnoc(x, dX, x1, dX1);
    InjectiveSnoc(w, w1);
    InjectiveSnoc(deltaW, deltaW1);
    InjectiveSnoc(lastDeltaW, lastDeltaW1);
    InjectiveSnoc(wCopy, wCopy1);
    ApartSnoc(w, deltaW, w1, deltaW1);
    ApartSnoc(w, lastDeltaW, w1, lastDeltaW1);
    ApartSnoc(w, wCopy, w1, wCopy1);
    ApartSnoc(deltaW, lastDeltaW, deltaW1, lastDeltaW1);
    ApartSnoc(deltaW, wCopy, deltaW1, wCopy1);
    ApartSnoc(lastDeltaW, wCopy, lastDeltaW1, wCopy1);
  }

  /** m has the shape of a layer-h weight matrix of a network with layer sizes npl. */
  ghost predicate Sized(m: array2<real>, npl: seq<nat>, h: nat)
    requires h < |npl|
  {
    m.Length0 == Rows(npl, h) && m.Length1 == Slots(npl, h)
  }

  /** The arrays of layer h: npl[h] activations at 1.0 and error signals at 0.0, and four
      matrices of one row per neuron (none in layer 0) and npl[h - 1] + 1 slots. */
  method AllocateLayer(npl: seq<nat>, h: nat)
    returns (out: array<real>, delta: array<real>,
             wh: array2<real>, deltaWh: array2<real>, lastDeltaWh: array2<real>, wCopyh: array2<real>)
    requires h < |npl|
    ensures fresh(out) && fresh(delta) && fresh(wh) && fresh(deltaWh) && fresh(lastDeltaWh) && fresh(wCopyh)
    ensures out != delta && wh != deltaWh && wh != lastDeltaWh && wh != wCopyh
    ensures deltaWh != lastDeltaWh && deltaWh != wCopyh && lastDeltaWh != wCopyh
    ensures out.Length == npl[h] && delta.Length == npl[h]
    ensures out[..] == seq(npl[h], _ => 1.0) && delta[..] == seq(npl[h], _ => 0.0)
    ensures Sized(wh, npl, h) && Sized(deltaWh, npl, h) && Sized(lastDeltaWh, npl, h) && Sized(wCopyh, npl, h)
  {
    out := new real[npl[h]](_ => 1.0);
    delta := new real[npl[h]](_ => 0.0);
    var rows, cols := Rows(npl, h), Slots(npl, h);
    wh := new real[rows, cols];
    deltaWh := new real[rows, cols];
    lastDeltaWh := new real[rows, cols];
    wCopyh := new real[rows, cols];
  }

  /** The arrays of every layer of a network with layer sizes npl. */
  method AllocateLayers(npl: seq<nat>)
    returns (outs: seq<array<real>>, deltas: seq<array<real>>,
             ws: seq<array2<real>>, deltaWs: seq<array2<real>>, lastDeltaWs: seq<array2<real>>, wCopies: seq<array2<real>>)
    ensures |outs| == |npl| && |deltas| == |npl| && |ws| == |npl| && |deltaWs| == |npl| && |lastDeltaWs| == |npl| && |wCopies| == |npl|
    ensures forall k {:trigger outs[k]} :: 0 <= k < |npl| ==> fresh(outs[k]) && outs[k][..] == seq(npl[k], _ => 1.0)
    ensures forall k {:trigger deltas[k]} :: 0 <= k < |npl| ==> fresh(deltas[k]) && deltas[k][..] == seq(npl[k], _ => 0.0)
    ensures forall k {:trigger ws[k]} :: 0 <= k < |npl| ==> fresh(ws[k]) && Sized(ws[k], npl, k)
    ensures forall k {:trigger deltaWs[k]} :: 0 <= k < |npl| ==> fresh(deltaWs[k]) && Sized(deltaWs[k], npl, k)
    ensures forall k {:trigger lastDeltaWs[k]} :: 0 <= k < |npl| ==> fresh(lastDeltaWs[k]) && Sized(lastDeltaWs[k], npl, k)
    ensures forall k {:trigger wCopies[k]} :: 0 <= k < |npl| ==> fresh(wCopies[k]) && Sized(wCopies[k], npl, k)
    ensures AllApart(outs, deltas, ws, deltaWs, lastDeltaWs, wCopies)
  {
    outs, deltas, ws, deltaWs, lastDeltaWs, wCopies := [], [], [], [], [], [];
    var h := 0;
    while h < |npl|
      invariant 0 <= h <= |npl|
      invariant |outs| == h && |deltas| == h && |ws| == h && |deltaWs| == h && |lastDeltaWs| == h && |wCopies| == h
      invariant forall k {:trigger outs[k]} :: 0 <= k < h ==> fresh(outs[k]) && outs[k][..] == seq(npl[k], _ => 1.0)
      invariant forall k {:trigger deltas[k]} :: 0 <= k < h ==> fresh(deltas[k]) && deltas[k][..] == seq(npl[k], _ => 0.0)
      invariant forall k {:trigger ws[k]} :: 0 <= k < h ==> fresh(ws[k]) && Sized(ws[k], npl, k)
      invariant forall k {:trigger deltaWs[k]} :: 0 <= k < h ==> fresh(deltaWs[k]) && Sized(deltaWs[k], npl, k)
      invariant forall k {:trigger lastDeltaWs[k]} :: 0 <= k < h ==> fresh(lastDeltaWs[k]) && Sized(lastDeltaWs[k], npl, k)
      invariant forall k {:trigger wCopies[k]} :: 0 <= k < h ==> fresh(wCopies[k]) && Sized(wCopies[k], npl, k)
      invariant AllApart(outs, deltas, ws, deltaWs, lastDeltaWs, wCopies)
    {
      var out, delta, wh, deltaWh, lastDeltaWh, wCopyh := AllocateLayer(npl, h);
      AllApartSnoc(outs, deltas, ws, deltaWs, lastDeltaWs, wCopies, out, delta, wh, deltaWh, lastDeltaWh, wCopyh);
      outs, deltas := outs + [out], deltas + [delta];
      ws, deltaWs, lastDeltaWs, wCopies := ws + [wh], deltaWs + [deltaWh], lastDeltaWs + [lastDeltaWh], wCopies + [wCopyh];
      h := h + 1;
    }
  }

  /** Row j of a matrix. */
  ghost function Row(m: array2<real>, j: nat): (r: seq<real>)
    requires j < m.Length0
    reads m
    ensures |r| == m.Length1
  {
    seq(m.Length1, i requires 0 <= i < m.Length1 reads m => m[j, i])
  }

  /** The contents of a matrix, row by row. */
  ghost function Mat(m: array2<real>): (r: Matrix)
    reads m
    ensures IsMatrix(r, m.Length0, m.Length1)
  {
    seq(m.Length0, j requires 0 <= j < m.Length0 reads m => Row(m, j))
  }

  /** The contents of a sequence of arrays. */
  ghost function Vectors(a: seq<array<real>>): (r: seq<seq<real>>)
    reads a
    ensures |r| == |a|
  {
    seq(|a|, h requires 0 <= h < |a| reads a => a[h][..])
  }

  /** The contents of a sequence of matrices. */
  ghost function Matrices(a: seq<array2<real>>): (r: seq<Matrix>)
    reads a
    ensures |r| == |a|
  {
    seq(|a|, h requires 0 <= h < |a| reads a => Mat(a[h]))
  }

  /** Copies src into dst element by element. */
  method CopyMatrix(src: array2<real>, dst: array2<real>)
    requires src != dst && src.Length0 == dst.Length0 && src.Length1 == dst.Length1
    modifies dst
    ensures Mat(dst) == Mat(src)
  {
    var j := 0;
    while j < src.Length0
      invariant 0 <= j <= src.Length0
      invariant forall r, c :: 0 <= r < j && 0 <= c < src.Length1 ==> dst[r, c] == src[r, c]
    {
      var i := 0;
      while i < src.Length1
        invariant 0 <= i <= src.Length1
        invariant forall r, c :: 0 <= r < j && 0 <= c < src.Length1 ==> dst[r, c] == src[r, c]
        invariant forall c :: 0 <= c < i ==> dst[j, c] == src[j, c]
      {
        dst[j, i] := src[j, i];
        i := i + 1;
      }
      j := j + 1;
    }
    assert forall r :: 0 <= r < src.Length0 ==> Mat(dst)[r] == Mat(src)[r];
  }

  /** Net input of neuron j of a layer with weights wh over the activations prev, negated:
      the running value out of forwardPropagate, from which each product is subtracted. */
  method NegatedNetInput(wh: array2<real>, j: nat, prev: array<real>, bias: bool) returns (out: real)
    requires j < wh.Length0 && wh.Length1 == prev.Length + 1
    ensures out == -NetInput(Row(wh, j), prev[..], bias)
  {
    ghost var wj := Row(wh, j);
    out := 0.0;
    var i := 0;
    while i < prev.Length
      invariant 0 <= i <= prev.Length
      invariant out == -Dot(wj, prev[..], i)
    {
      assert wj[i] == wh[j, i];
      out := out - wh[j, i] * prev[i];
      i := i + 1;
    }
    if bias {
      assert wj[prev.Length] == wh[j, prev.Length];
      out := out - wh[j, prev.Length];
    }
  }

  /** One layer of forwardPropagate: neuron j's activation is the sigmoid of its net input. */
  method ForwardLayer(wh: array2<real>, prev: array<real>, out: array<real>, bias: bool, sigma: real -> real)
    requires prev != out && wh.Length0 == out.Length && wh.Length1 == prev.Length + 1
    modifies out
    ensures out[..] == LayerOut(Mat(wh), prev[..], bias, sigma)
  {
    var j := 0;
    while j < out.Length
      invariant 0 <= j <= out.Length
      invariant forall k :: 0 <= k < j ==> out[k] == sigma(NetInput(Row(wh, k), prev[..], bias))
    {
      var net := NegatedNetInput(wh, j, prev, bias);
      out[j] := sigma(-net);
      j := j + 1;
    }
  }

  /** The layer loop of forwardPropagate: layers 1 .. L-1, each from the one below. */
  method Propagate(npl: seq<nat>, xs: seq<array<real>>, ws: seq<array2<real>>, bias: bool, sigma: real -> real)
    requires |npl| > 0 && |xs| == |npl| && Injective(xs)
    requires forall h :: 0 <= h < |npl| ==> xs[h].Length == npl[h]
    requires |ws| == |npl| && forall h :: 0 <= h < |npl| ==> Sized(ws[h], npl, h)
    modifies xs
    ensures WeightsShaped(npl, Matrices(ws))
    ensures forall h :: 0 <= h < |npl| ==> xs[h][..] == Activation(npl, old(xs[0][..]), Matrices(ws), bias, sigma, h)
  {
    ghost var x0, m := xs[0][..], Matrices(ws);
    assert WeightsShaped(npl, m);
    ghost var fx := seq(|npl|, k requires 0 <= k < |npl| => Activation(npl, x0, m, bias, sigma, k));
    var h := 1;
    while h < |npl|
      invariant 1 <= h <= |npl|
      invariant forall k :: 0 <= k < h ==> xs[k][..] == fx[k]
    {
      assert Mat(ws[h]) == m[h];
      assert fx[h] == LayerOut(m[h], fx[h - 1], bias, sigma);
      ForwardLayer(ws[h], xs[h - 1], xs[h], bias, sigma);
      h := h + 1;
    }
  }

  /** Copies every matrix of src into the matrix at the same layer of dst. */
  method CopyMatrices(src: seq<array2<real>>, dst: seq<array2<real>>)
    requires |src| == |dst| && Injective(dst) && Apart(src, dst)
    requires forall h :: 0 <= h < |src| ==> src[h].Length0 == dst[h].Length0 && src[h].Length1 == dst[h].Length1
    modifies dst
    ensures Matrices(dst) == Matrices(src)
  {
    var h := 0;
    while h < |src|
      invariant 0 <= h <= |src|
      invariant forall k :: 0 <= k < h ==> Mat(dst[k]) == Mat(src[k])
    {
      CopyMatrix(src[h], dst[h]);
      h := h + 1;
    }
    assert forall k :: 0 <= k < |src| ==> Matrices(dst)[k] == Matrices(src)[k];
  }

  /** The output layer of backpropagateError: each neuron's signal from its target. */
  method OutputSignals(target: seq<real>, out: array<real>, delta: array<real>)
    requires out != delta && |target| == out.Length && delta.Length == out.Length
    modifies delta
    ensures delta[..] == OutputDeltas(target, out[..])
  {
    var j := 0;
    while j < out.Length
      invariant 0 <= j <= out.Length
      invariant forall k :: 0 <= k < j ==> delta[k] == OutputDelta(target[k], out[k])
    {
      delta[j] := -(target[j] - out[j]) * out[j] * (1.0 - out[j]);
      j := j + 1;
    }
  }

  /** A hidden layer of backpropagateError: neuron j sums, over the neurons i of the layer
      above, its weight into i times i's signal, and scales the sum by the sigmoid's
      derivative. */
  method HiddenSignals(wNext: array2<real>, dNext: array<real>, out: array<real>, delta: array<real>)
    requires delta != dNext && delta != out
    requires wNext.Length0 == dNext.Length && wNext.Length1 == out.Length + 1 && delta.Length == out.Length
    modifies delta
    ensures delta[..] == HiddenDeltas(Mat(wNext), dNext[..], out[..])
  {
    ghost var m := Mat(wNext);
    var sum := 0.0;
    var j := 0;
    while j < out.Length
      invariant 0 <= j <= out.Length && sum == 0.0
      invariant forall k :: 0 <= k < j ==> delta[k] == HiddenDelta(BackSum(m, dNext[..], k, dNext.Length), out[k])
    {
      var i := 0;
      while i < dNext.Length
        invariant 0 <= i <= dNext.Length
        invariant sum == BackSum(m, dNext[..], j, i)
      {
        assert m[i][j] == wNext[i, j];
        sum := sum + wNext[i, j] * dNext[i];
        i := i + 1;
      }
      delta[j] := sum * out[j] * (1.0 - out[j]);
      sum := 0.0;
      j := j + 1;
    }
  }

  /** Layer h of backpropagateError, from the signals of layer h + 1; the other layers keep
      their signals. */
  method HiddenSignalsAt(npl: seq<nat>, xs: seq<array<real>>, dXs: seq<array<real>>, ws: seq<array2<real>>, target: seq<real>,
                         h: nat, ghost v: seq<seq<real>>, ghost m: seq<Matrix>)
    requires 0 < h < |npl| - 1 && |xs| == |npl| && |dXs| == |npl| && |ws| == |npl| && Injective(dXs) && Apart(xs, dXs)
    requires dXs[h].Length == npl[h] && dXs[h + 1].Length == npl[h + 1]
    requires VectorsShaped(npl, v) && WeightsShaped(npl, m) && |target| == npl[|npl| - 1]
    requires xs[h][..] == v[h] && Sized(ws[h + 1], npl, h + 1) && Mat(ws[h + 1]) == m[h + 1]
    requires dXs[h + 1][..] == Delta(npl, v, m, target, h + 1)
    modifies dXs[h]
    ensures dXs[h][..] == Delta(npl, v, m, target, h)
    ensures forall k {:trigger dXs[k]} :: 0 <= k < |npl| && k != h ==> dXs[k][..] == old(dXs[k][..])
  {
    HiddenSignals(ws[h + 1], dXs[h + 1], xs[h], dXs[h]);
  }

  /** The layer loop of backpropagateError: the output layer, then layers L-2 down to 1,
      each from the one above. */
  method BackpropagateSignals(npl: seq<nat>, xs: seq<array<real>>, dXs: seq<array<real>>, ws: seq<array2<real>>, target: seq<real>,
                              ghost v: seq<seq<real>>, ghost m: seq<Matrix>)
    requires |npl| > 0 && |xs| == |npl| && |dXs| == |npl| && |ws| == |npl| && Injective(dXs) && Apart(xs, dXs)
    requires forall h {:trigger dXs[h]} :: 0 <= h < |npl| ==> dXs[h].Length == npl[h]
    requires VectorsShaped(npl, v) && WeightsShaped(npl, m) && |target| == npl[|npl| - 1]
    requires forall h {:trigger xs[h]} :: 0 <= h < |npl| ==> xs[h][..] == v[h]
    requires forall h {:trigger ws[h]} :: 0 <= h < |npl| ==> Sized(ws[h], npl, h)
    requires forall h {:trigger ws[h]} :: 0 <= h < |npl| ==> Mat(ws[h]) == m[h]
    modifies dXs
    ensures forall h :: 0 < h < |npl| ==> dXs[h][..] == Delta(npl, v, m, target, h)
    ensures |npl| == 1 ==> dXs[0][..] == Delta(npl, v, m, target, 0)
    ensures |npl| > 1 ==> dXs[0][..] == old(dXs[0][..])
  {
    var last := |npl| - 1;
    OutputSignals(target, xs[last], dXs[last]);
    var h: int := last - 1;
    while h > 0
      invariant -1 <= h < last && (h == -1 ==> last == 0)
      invariant forall k :: h < k <= last ==> dXs[k][..] == Delta(npl, v, m, target, k)
      invariant forall k :: 0 <= k <= h ==> dXs[k][..] == old(dXs[k][..])
    {
      HiddenSignalsAt(npl, xs, dXs, ws, target, h, v, m);
      h := h - 1;
    }
  }

  // ---------------------------------------------------------------------------
  // deltaW and w, row by row: row j of a layer's matrix is neuron j's vector, whose first
  // cols - 1 slots are its connections and whose last slot is its bias weight.

  /** Row j of the reset in performEpochOnline: every trained slot of deltaW becomes 0. */
  method ZeroRow(dWh: array2<real>, j: nat, bias: bool)
    requires j < dWh.Length0 && dWh.Length1 > 0
    modifies dWh
    ensures forall c :: 0 <= c < dWh.Length1 ==>
      dWh[j, c] == if Trained(c, dWh.Length1 - 1, bias) then 0.0 else old(dWh[j, c])
    ensures forall r, c :: 0 <= r < dWh.Length0 && 0 <= c < dWh.Length1 && r != j ==> dWh[r, c] == old(dWh[r, c])
  {
    var m := dWh.Length1 - 1;
    var i := 0;
    while i < m
      invariant 0 <= i <= m
      invariant forall c :: 0 <= c < dWh.Length1 ==> dWh[j, c] == if c < i then 0.0 else old(dWh[j, c])
      invariant forall r, c :: 0 <= r < dWh.Length0 && 0 <= c < dWh.Length1 && r != j ==> dWh[r, c] == old(dWh[r, c])
    {
      dWh[j, i] := 0.0;
      i := i + 1;
    }
    if bias {
      dWh[j, m] := 0.0;
    }
  }

  /** Row j of accumulateChange: the neuron's signal times each upstream activation is
      added to its connection slot, and the signal alone to the bias slot when the bias is on. */
  method AccumulateRow(dWh: array2<real>, j: nat, signal: real, prev: array<real>, bias: bool)
    requires j < dWh.Length0 && dWh.Length1 == prev.Length + 1
    modifies dWh
    ensures forall c :: 0 <= c < dWh.Length1 ==>
      dWh[j, c] == if c < prev.Length then old(dWh[j, c]) + Contribution(signal, prev[c])
                   else if bias then old(dWh[j, c]) + signal
                   else old(dWh[j, c])
    ensures forall r, c :: 0 <= r < dWh.Length0 && 0 <= c < dWh.Length1 && r != j ==> dWh[r, c] == old(dWh[r, c])
  {
    var m := prev.Length;
    var i := 0;
    while i < m
      invariant 0 <= i <= m
      invariant forall c :: 0 <= c < dWh.Length1 ==>
        dWh[j, c] == if c < i then old(dWh[j, c]) + Contribution(signal, prev[c]) else old(dWh[j, c])
      invariant forall r, c :: 0 <= r < dWh.Length0 && 0 <= c < dWh.Length1 && r != j ==> dWh[r, c] == old(dWh[r, c])
    {
      dWh[j, i] := dWh[j, i] + signal * prev[i];
      i := i + 1;
    }
    if bias {
      dWh[j, m] := dWh[j, m] + signal;
    }
  }

  /** Row j of weightAdjustment: every trained slot takes the momentum step, and the change
      it used is remembered in lastDeltaW. */
  method AdjustRow(wh: array2<real>, dWh: array2<real>, lastWh: array2<real>, j: nat, eta: real, mu: real, bias: bool)
    requires wh != lastWh && dWh != wh && dWh != lastWh
    requires j < wh.Length0 && wh.Length1 > 0
    requires dWh.Length0 == wh.Length0 && dWh.Length1 == wh.Length1
    requires lastWh.Length0 == wh.Length0 && lastWh.Length1 == wh.Length1
    modifies wh, lastWh
    ensures forall c :: 0 <= c < wh.Length1 ==>
      if Trained(c, wh.Length1 - 1, bias)
      then wh[j, c] == MomentumUpdate(old(wh[j, c]), dWh[j, c], old(lastWh[j, c]), eta, mu) && lastWh[j, c] == dWh[j, c]
      else wh[j, c] == old(wh[j, c]) && lastWh[j, c] == old(lastWh[j, c])
    ensures forall r, c :: 0 <= r < wh.Length0 && 0 <= c < wh.Length1 && r != j ==>
      wh[r, c] == old(wh[r, c]) && lastWh[r, c] == old(lastWh[r, c])
  {
    var m := wh.Length1 - 1;
    var i := 0;
    while i < m
      invariant 0 <= i <= m
      invariant forall c :: 0 <= c < wh.Length1 ==>
        if c < i
        then wh[j, c] == MomentumUpdate(old(wh[j, c]), dWh[j, c], old(lastWh[j, c]), eta, mu) && lastWh[j, c] == dWh[j, c]
        else wh[j, c] == old(wh[j, c]) && lastWh[j, c] == old(lastWh[j, c])
      invariant forall r, c :: 0 <= r < wh.Length0 && 0 <= c < wh.Length1 && r != j ==>
        wh[r, c] == old(wh[r, c]) && lastWh[r, c] == old(lastWh[r, c])
    {
      wh[j, i] := wh[j, i] + (-(eta * dWh[j, i]) - mu * (eta * lastWh[j, i]));
      lastWh[j, i] := dWh[j, i];
      i := i + 1;
    }
    if bias {
      wh[j, m] := wh[j, m] + (-(eta * dWh[j, m]) - mu * (eta * lastWh[j, m]));
      lastWh[j, m] := dWh[j, m];
    }
  }

  /** The reset of one layer's deltaW. */
  method ZeroLayerChanges(dWh: array2<real>, bias: bool)
    requires dWh.Length1 > 0
    modifies dWh
    ensures Mat(dWh) == ZeroLayer(old(Mat(dWh)), dWh.Length1 - 1, bias)
  {
    ghost var m0 := Mat(dWh);
    var m := dWh.Length1 - 1;
    var j := 0;
    while j < dWh.Length0
      invariant 0 <= j <= dWh.Length0
      invariant forall r, c :: 0 <= r < dWh.Length0 && 0 <= c < dWh.Length1 ==>
        dWh[r, c] == if r < j && Trained(c, m, bias) then 0.0 else m0[r][c]
    {
      ZeroRow(dWh, j, bias);
      j := j + 1;
    }
    ghost var z := ZeroLayer(m0, m, bias);
    assert forall r, c :: 0 <= r < dWh.Length0 && 0 <= c < dWh.Length1 ==> Mat(dWh)[r][c] == z[r][c];
    assert forall r :: 0 <= r < dWh.Length0 ==> Mat(dWh)[r] == z[r];
  }

  /** accumulateChange on one layer with signals d over the activations prev below it. */
  method AccumulateLayerChanges(dWh: array2<real>, d: array<real>, prev: array<real>, bias: bool,
                                ghost m0: Matrix, ghost dv: seq<real>, ghost pv: seq<real>)
    requires dWh.Length0 == d.Length && dWh.Length1 == prev.Length + 1
    requires Mat(dWh) == m0 && d[..] == dv && prev[..] == pv
    modifies dWh
    ensures Mat(dWh) == AccumulateLayer(m0, dv, pv, bias)
  {
    ghost var a := AccumulateLayer(m0, dv, pv, bias);
    var j := 0;
    while j < dWh.Length0
      invariant 0 <= j <= dWh.Length0
      invariant forall r, c :: 0 <= r < dWh.Length0 && 0 <= c < dWh.Length1 ==>
        dWh[r, c] == if r < j then a[r][c] else m0[r][c]
    {
      AccumulateRow(dWh, j, d[j], prev, bias);
      j := j + 1;
    }
    assert forall r, c :: 0 <= r < dWh.Length0 && 0 <= c < dWh.Length1 ==> Mat(dWh)[r][c] == a[r][c];
    assert forall r :: 0 <= r < dWh.Length0 ==> Mat(dWh)[r] == a[r];
  }

  /** weightAdjustment on one layer. */
  method AdjustLayerWeights(wh: array2<real>, dWh: array2<real>, lastWh: array2<real>, c: Config,
                            ghost w0: Matrix, ghost d0: Matrix, ghost l0: Matrix)
    requires wh != lastWh && dWh != wh && dWh != lastWh && wh.Length1 > 0
    requires dWh.Length0 == wh.Length0 && dWh.Length1 == wh.Length1
    requires lastWh.Length0 == wh.Length0 && lastWh.Length1 == wh.Length1
    requires Mat(wh) == w0 && Mat(dWh) == d0 && Mat(lastWh) == l0
    modifies wh, lastWh
    ensures Mat(wh) == AdjustLayer(w0, d0, l0, wh.Length1 - 1, c)
    ensures Mat(lastWh) == RememberLayer(d0, l0, wh.Length1 - 1, c.bias)
  {
    var m := wh.Length1 - 1;
    ghost var aw := AdjustLayer(w0, d0, l0, m, c);
    ghost var al := RememberLayer(d0, l0, m, c.bias);
    var j := 0;
    while j < wh.Length0
      invariant 0 <= j <= wh.Length0
      invariant forall r, s :: 0 <= r < wh.Length0 && 0 <= s < wh.Length1 ==> wh[r, s] == if r < j then aw[r][s] else w0[r][s]
      invariant forall r, s :: 0 <= r < wh.Length0 && 0 <= s < wh.Length1 ==> lastWh[r, s] == if r < j then al[r][s] else l0[r][s]
    {
      AdjustRow(wh, dWh, lastWh, j, c.eta, c.mu, c.bias);
      j := j + 1;
    }
    assert forall r, s :: 0 <= r < wh.Length0 && 0 <= s < wh.Length1 ==> Mat(wh)[r][s] == aw[r][s];
    assert forall r, s :: 0 <= r < wh.Length0 && 0 <= s < wh.Length1 ==> Mat(lastWh)[r][s] == al[r][s];
    assert forall r :: 0 <= r < wh.Length0 ==> Mat(wh)[r] == aw[r];
    assert forall r :: 0 <= r < wh.Length0 ==> Mat(lastWh)[r] == al[r];
    assert Mat(wh) == aw && Mat(lastWh) == al && Mat(dWh) == d0;
  }

  /** The reset of deltaW in every layer from 1 on; before is what the matrices held. */
  method ZeroAllChanges(npl: seq<nat>, dWs: seq<array2<real>>, bias: bool, ghost before: seq<Matrix>)
    requires |dWs| == |npl| && Injective(dWs) && forall h :: 0 <= h < |npl| ==> Sized(dWs[h], npl, h)
    requires |before| == |npl| && forall k {:trigger dWs[k]} :: 0 <= k < |npl| ==> Mat(dWs[k]) == before[k]
    requires WeightsShaped(npl, before)
    modifies dWs
    ensures forall k :: 0 <= k < |npl| ==> Mat(dWs[k]) == ZeroLayers(npl, before, bias)[k]
  {
    ghost var after := ZeroLayers(npl, before, bias);
    var h := 1;
    while h < |npl|
      invariant 1 <= h && (h <= |npl| || h == 1)
      invariant forall k :: 0 <= k < |npl| ==> if k < h then Mat(dWs[k]) == after[k] else Mat(dWs[k]) == before[k]
    {
      ZeroLayerChanges(dWs[h], bias);
      h := h + 1;
    }
  }

  /** accumulateChange in every layer from 1 on, with activations xs and signals ds. */
  method AccumulateAllChanges(npl: seq<nat>, xs: seq<array<real>>, dXs: seq<array<real>>, dWs: seq<array2<real>>, bias: bool,
                              ghost v: seq<seq<real>>, ghost ds: seq<seq<real>>, ghost before: seq<Matrix>)
    requires |xs| == |npl| && |dXs| == |npl| && |dWs| == |npl| && |v| == |npl| && |ds| == |npl| && Injective(dWs)
    requires forall h {:trigger dWs[h]} :: 0 <= h < |npl| ==> Sized(dWs[h], npl, h)
    requires forall k {:trigger xs[k]} :: 0 <= k < |npl| ==> xs[k][..] == v[k]
    requires forall k {:trigger dXs[k]} :: 0 <= k < |npl| ==> dXs[k][..] == ds[k]
    requires VectorsShaped(npl, v) && VectorsShaped(npl, ds)
    requires |before| == |npl| && forall k {:trigger dWs[k]} :: 0 <= k < |npl| ==> Mat(dWs[k]) == before[k]
    requires WeightsShaped(npl, before)
    modifies dWs
    ensures forall k :: 0 <= k < |npl| ==> Mat(dWs[k]) == AccumulateLayers(npl, before, ds, v, bias)[k]
  {
    ghost var after := AccumulateLayers(npl, before, ds, v, bias);
    var h := 1;
    while h < |npl|
      invariant 1 <= h && (h <= |npl| || h == 1)
      invariant forall k :: 0 <= k < |npl| ==> if k < h then Mat(dWs[k]) == after[k] else Mat(dWs[k]) == before[k]
    {
      AccumulateLayerChanges(dWs[h], dXs[h], xs[h - 1], bias, before[h], ds[h], v[h - 1]);
      h := h + 1;
    }
    assert forall k :: 0 <= k < |npl| ==> Mat(dWs[k]) == after[k];
  }

  /** weightAdjustment on layer h of the network; the other layers keep their matrices. */
  method AdjustLayerAt(npl: seq<nat>, ws: seq<array2<real>>, dWs: seq<array2<real>>, lastWs: seq<array2<real>>, h: nat,
                       c: Config, ghost w0: Matrix, ghost d0: Matrix, ghost l0: Matrix)
    requires 0 < h < |npl| && |ws| == |npl| && |dWs| == |npl| && |lastWs| == |npl|
    requires Injective(ws) && Injective(lastWs) && Apart(ws, lastWs) && Apart(ws, dWs) && Apart(dWs, lastWs)
    requires Sized(ws[h], npl, h) && Sized(dWs[h], npl, h) && Sized(lastWs[h], npl, h)
    requires Mat(ws[h]) == w0 && Mat(dWs[h]) == d0 && Mat(lastWs[h]) == l0
    modifies ws[h], lastWs[h]
    ensures Mat(ws[h]) == AdjustLayer(w0, d0, l0, npl[h - 1], c)
    ensures Mat(lastWs[h]) == RememberLayer(d0, l0, npl[h - 1], c.bias)
    ensures forall k {:trigger ws[k]} :: 0 <= k < |npl| && k != h ==> Mat(ws[k]) == old(Mat(ws[k]))
    ensures forall k {:trigger lastWs[k]} :: 0 <= k < |npl| && k != h ==> Mat(lastWs[k]) == old(Mat(lastWs[k]))
    ensures forall k {:trigger dWs[k]} :: 0 <= k < |npl| ==> Mat(dWs[k]) == old(Mat(dWs[k]))
  {
    AdjustLayerWeights(ws[h], dWs[h], lastWs[h], c, w0, d0, l0);
  }

  /** weightAdjustment in every layer from 1 on; w0, d0 and l0 are what w, deltaW and
      lastDeltaW held. */
  method AdjustAllWeights(npl: seq<nat>, ws: seq<array2<real>>, dWs: seq<array2<real>>, lastWs: seq<array2<real>>, c: Config,
                          ghost w0: seq<Matrix>, ghost d0: seq<Matrix>, ghost l0: seq<Matrix>)
    requires |ws| == |npl| && |dWs| == |npl| && |lastWs| == |npl|
    requires Injective(ws) && Injective(lastWs) && Apart(ws, lastWs) && Apart(ws, dWs) && Apart(dWs, lastWs)
    requires forall h {:trigger ws[h]} :: 0 <= h < |npl| ==> Sized(ws[h], npl, h)
    requires forall h {:trigger dWs[h]} :: 0 <= h < |npl| ==> Sized(dWs[h], npl, h)
    requires forall h {:trigger lastWs[h]} :: 0 <= h < |npl| ==> Sized(lastWs[h], npl, h)
    requires |w0| == |npl| && |d0| == |npl| && |l0| == |npl|
    requires forall k {:trigger ws[k]} :: 0 <= k < |npl| ==> Mat(ws[k]) == w0[k]
    requires forall k {:trigger dWs[k]} :: 0 <= k < |npl| ==> Mat(dWs[k]) == d0[k]
    requires forall k {:trigger lastWs[k]} :: 0 <= k < |npl| ==> Mat(lastWs[k]) == l0[k]
    requires WeightsShaped(npl, w0) && WeightsShaped(npl, d0) && WeightsShaped(npl, l0)
    modifies ws, lastWs
    ensures forall k :: 0 <= k < |npl| ==> Mat(ws[k]) == AdjustLayers(npl, w0, d0, l0, c)[k]
    ensures forall k :: 0 <= k < |npl| ==> Mat(lastWs[k]) == RememberLayers(npl, d0, l0, c.bias)[k]
  {
    ghost var aw, al := AdjustLayers(npl, w0, d0, l0, c), RememberLayers(npl, d0, l0, c.bias);
    var h := 1;
    while h < |npl|
      invariant 1 <= h && (h <= |npl| || h == 1)
      invariant forall k {:trigger dWs[k]} :: 0 <= k < |npl| ==> Mat(dWs[k]) == d0[k]
      invariant forall k {:trigger ws[k]} :: 0 <= k < h && k < |npl| ==> Mat(ws[k]) == aw[k]
      invariant forall k {:trigger lastWs[k]} :: 0 <= k < h && k < |npl| ==> Mat(lastWs[k]) == al[k]
      invariant forall k {:trigger ws[k]} :: h <= k < |npl| ==> Mat(ws[k]) == w0[k]
      invariant forall k {:trigger lastWs[k]} :: h <= k < |npl| ==> Mat(lastWs[k]) == l0[k]
    {
      AdjustLayerAt(npl, ws, dWs, lastWs, h, c, w0[h], d0[h], l0[h]);
      h := h + 1;
    }
  }

  // ---------------------------------------------------------------------------
  // Weight files: the weights from layer 1 on, row by row, each row slot by slot.

  /** The first line of readWeights: the number of layers, then the size of each. None when
      the file ends early or an entry is not a natural number. */
  method ParseHeader(tokens: seq<real>) returns (r: Option<seq<nat>>)
    ensures r == ReadHeader(tokens)
  {
    if |tokens| == 0 {
      return None;
    }
    var nl := NatOf(tokens[0]);
    if nl.None? || |tokens| < nl.value + 1 {
      return None;
    }
    var npl: seq<nat> := [];
    var i := 0;
    while i < nl.value
      invariant 0 <= i <= nl.value && |npl| == i
      invariant forall q :: 0 <= q < i ==> NatOf(tokens[q + 1]) == Some(npl[q])
    {
      var n := NatOf(tokens[i + 1]);
      if n.None? {
        return None;
      }
      npl := npl + [n.value];
      i := i + 1;
    }
    assert forall q :: 1 <= q <= nl.value ==> NatOf(tokens[q]).Some? by {
      forall q | 1 <= q <= nl.value ensures NatOf(tokens[q]).Some? {
        assert NatOf(tokens[(q - 1) + 1]) == Some(npl[q - 1]);
      }
    }
    assert seq(nl.value, q requires 0 <= q < nl.value => NatOf(tokens[q + 1]).value) == npl;
    return Some(npl);
  }

  /** One layer of randomWeights and readWeights: the slots of layer h are filled in file
      order from values, starting where the layer starts; next is where the following
      layer starts. */
  method StoreLayer(npl: seq<nat>, h: nat, wh: array2<real>, values: seq<real>, start: nat) returns (next: nat)
    requires h < |npl| && Sized(wh, npl, h) && |values| >= WeightCount(npl) && start == LayerStart(npl, h)
    modifies wh
    ensures next == LayerStart(npl, h + 1)
    ensures forall j, k :: 0 <= j < wh.Length0 && 0 <= k < wh.Length1 ==> wh[j, k] == Entry(npl, values, h, j, k)
  {
    next := start;
    var j := 0;
    while j < wh.Length0
      invariant 0 <= j <= wh.Length0 && next == Offset(npl, h, j, 0)
      invariant forall r, c :: 0 <= r < j && 0 <= c < wh.Length1 ==> wh[r, c] == Entry(npl, values, h, r, c)
    {
      var k := 0;
      while k < wh.Length1
        invariant 0 <= k <= wh.Length1 && next == Offset(npl, h, j, k)
        invariant forall r, c :: 0 <= r < j && 0 <= c < wh.Length1 ==> wh[r, c] == Entry(npl, values, h, r, c)
        invariant forall c :: 0 <= c < k ==> wh[j, c] == Entry(npl, values, h, j, c)
      {
        OffsetBound(npl, h, j, k);
        wh[j, k] := values[next];
        next := next + 1;
        k := k + 1;
      }
      OffsetNextRow(npl, h, j);
      j := j + 1;
    }
    LayerEnd(npl, h);
  }

  /** The weight loops of randomWeights and readWeights: layers 1 .. L-1 in turn, each read
      on from where the one before ended. */
  method StoreWeights(npl: seq<nat>, ws: seq<array2<real>>, values: seq<real>)
    requires |ws| == |npl| && Injective(ws) && |values| >= WeightCount(npl)
    requires forall h {:trigger ws[h]} :: 0 <= h < |npl| ==> Sized(ws[h], npl, h)
    modifies ws
    ensures forall h {:trigger ws[h]} :: 0 <= h < |npl| ==> Mat(ws[h]) == Unflatten(npl, values)[h]
  {
    ghost var u := Unflatten(npl, values);
    if |npl| == 0 {
      return;
    }
    assert Mat(ws[0]) == u[0];
    var pos := 0;
    var h := 1;
    while h < |npl|
      invariant 1 <= h <= |npl| && pos == LayerStart(npl, h)
      invariant forall k {:trigger ws[k]} :: 0 <= k < h ==> Mat(ws[k]) == u[k]
    {
      pos := StoreLayer(npl, h, ws[h], values, pos);
      forall j | 0 <= j < Rows(npl, h)
        ensures Mat(ws[h])[j] == u[h][j]
      {
        assert forall k :: 0 <= k < Slots(npl, h) ==> Mat(ws[h])[j][k] == Entry(npl, values, h, j, k);
      }
      h := h + 1;
    }
  }

  /** One layer of saveWeights: its rows, each slot by slot, after what was written before. */
  method AppendLayer(wh: array2<real>, tokens: seq<real>) returns (r: seq<real>)
    ensures r == tokens + Concat(Mat(wh))
  {
    ghost var m := Mat(wh);
    r := tokens;
    var j := 0;
    while j < wh.Length0
      invariant 0 <= j <= wh.Length0
      invariant r == tokens + Concat(m[..j])
    {
      var k := 0;
      while k < wh.Length1
        invariant 0 <= k <= wh.Length1
        invariant r == tokens + Concat(m[..j]) + m[j][..k]
      {
        assert m[j][..k + 1] == m[j][..k] + [wh[j, k]];
        r := r + [wh[j, k]];
        k := k + 1;
      }
      ConcatSnoc(m, j);
      assert m[j][..wh.Length1] == m[j];
      j := j + 1;
    }
    assert m[..wh.Length0] == m;
  }

  /** The weight loops of saveWeights: layers 1 .. L-1 in turn. */
  method AppendWeights(npl: seq<nat>, ws: seq<array2<real>>, tokens: seq<real>, ghost m: seq<Matrix>) returns (r: seq<real>)
    requires |ws| == |npl| && |m| == |npl| && WeightsShaped(npl, m)
    requires forall h {:trigger ws[h]} :: 0 <= h < |npl| ==> Mat(ws[h]) == m[h]
    ensures r == tokens + Flatten(m)
  {
    ghost var runs := LayerRuns(m);
    r := tokens;
    if |npl| == 0 {
      assert runs == [];
      return;
    }
    ConcatSnoc(runs, 0);
    assert runs[..0] == [] && runs[0] == [];
    var h := 1;
    while h < |npl|
      invariant 1 <= h <= |npl|
      invariant r == tokens + Concat(runs[..h])
    {
      assert runs[h] == Concat(Mat(ws[h]));
      r := AppendLayer(ws[h], r);
      ConcatSnoc(runs, h);
      h := h + 1;
    }
    assert runs[..|npl|] == runs;
  }

  class MultilayerPerceptron {
    /** The number of neurons of each layer; its length is the number of layers. */
    var nOfNeurons: seq<nat>
    /** Activations, one array per layer. */
    var x: seq<array<real>>
    /** Error signals, one array per layer. */
    var dX: seq<array<real>>
    /** Row j of layer h's matrix is the vector of neuron j: a slot per neuron of layer
        h - 1 and then the bias slot. Layer 0 has no rows. */
    var w: seq<array2<real>>
    var deltaW: seq<array2<real>>
    var lastDeltaW: seq<array2<real>>
    var wCopy: seq<array2<real>>
    /** Learning rate, momentum factor, whether the bias slot is used. */
    var eta: real
    var mu: real
    var bias: bool
    /** The activation function. */
    const sigma: real -> real

    /** The shape that initialize builds, with every array its own. */
    ghost predicate Valid()
      reads this
    {
      var l := |nOfNeurons|;
      |x| == l && |dX| == l && |w| == l && |deltaW| == l && |lastDeltaW| == l && |wCopy| == l &&
      (forall h {:trigger x[h]} :: 0 <= h < l ==> x[h].Length == nOfNeurons[h]) &&
      (forall h {:trigger dX[h]} :: 0 <= h < l ==> dX[h].Length == nOfNeurons[h]) &&
      (forall h {:trigger w[h]} :: 0 <= h < l ==> Sized(w[h], nOfNeurons, h)) &&
      (forall h {:trigger deltaW[h]} :: 0 <= h < l ==> Sized(deltaW[h], nOfNeurons, h)) &&
      (forall h {:trigger lastDeltaW[h]} :: 0 <= h < l ==> Sized(lastDeltaW[h], nOfNeurons, h)) &&
      (forall h {:trigger wCopy[h]} :: 0 <= h < l ==> Sized(wCopy[h], nOfNeurons, h)) &&
      AllApart(x, dX, w, deltaW, lastDeltaW, wCopy)
    }

    ghost function X(): seq<seq<real>>
      reads this, x
    {
      Vectors(x)
    }

    ghost function DX(): seq<seq<real>>
      reads this, dX
    {
      Vectors(dX)
    }

    ghost function W(): seq<Matrix>
      reads this, w
    {
      Matrices(w)
    }

    ghost function DeltaW(): seq<Matrix>
      reads this, deltaW
    {
      Matrices(deltaW)
    }

    ghost function LastDeltaW(): seq<Matrix>
      reads this, lastDeltaW
    {
      Matrices(lastDeltaW)
    }

    ghost function WCopy(): seq<Matrix>
      reads this, wCopy
    {
      Matrices(wCopy)
    }

    /** The network as a value of the model. */
    ghost function State(): Net
      reads this, x, dX, w, deltaW, lastDeltaW, wCopy
    {
      Net(X(), DX(), W(), DeltaW(), LastDeltaW(), WCopy())
    }

    function Settings(): Config
      reads this
    {
      NetworkModel.Config(eta, mu, bias)
    }

    /** The views, array by array. */
    lemma Views()
      ensures forall k {:trigger x[k]} :: 0 <= k < |x| ==> x[k][..] == X()[k]
      ensures forall k {:trigger dX[k]} :: 0 <= k < |dX| ==> dX[k][..] == DX()[k]
      ensures forall k {:trigger w[k]} :: 0 <= k < |w| ==> Mat(w[k]) == W()[k]
      ensures forall k {:trigger deltaW[k]} :: 0 <= k < |deltaW| ==> Mat(deltaW[k]) == DeltaW()[k]
      ensures forall k {:trigger lastDeltaW[k]} :: 0 <= k < |lastDeltaW| ==> Mat(lastDeltaW[k]) == LastDeltaW()[k]
      ensures forall k {:trigger wCopy[k]} :: 0 <= k < |wCopy| ==> Mat(wCopy[k]) == WCopy()[k]
    {
    }

    lemma ValidShaped()
      requires Valid()
      ensures Shaped(nOfNeurons, State())
    {
    }

    /** The defaults: eta 0.1, mu 0.9, no bias, and no layers until initialize. */
    constructor(sigma: real -> real)
      ensures Valid() && nOfNeurons == []
      ensures Settings() == DefaultConfig && this.sigma == sigma
    {
      eta, mu, bias := 0.1, 0.9, false;
      this.sigma := sigma;
      nOfNeurons := [];
      x, dX := [], [];
      w, deltaW, lastDeltaW, wCopy := [], [], [], [];
    }

    /** initialize: layer h gets npl[h] neurons with activation 1.0 and error signal 0.0;
        from layer 1 on each neuron gets its four vectors of npl[h - 1] + 1 slots, whose
        values are not set. */
    method Initialize(npl: seq<nat>)
      modifies this
      ensures Valid() && nOfNeurons == npl && Settings() == old(Settings())
      ensures forall h {:trigger x[h]} :: 0 <= h < |npl| ==> fresh(x[h]) && x[h][..] == seq(npl[h], _ => 1.0)
      ensures forall h {:trigger dX[h]} :: 0 <= h < |npl| ==> fresh(dX[h]) && dX[h][..] == seq(npl[h], _ => 0.0)
      ensures forall h {:trigger w[h]} :: 0 <= h < |npl| ==> fresh(w[h])
      ensures forall h {:trigger deltaW[h]} :: 0 <= h < |npl| ==> fresh(deltaW[h])
      ensures forall h {:trigger lastDeltaW[h]} :: 0 <= h < |npl| ==> fresh(lastDeltaW[h])
      ensures forall h {:trigger wCopy[h]} :: 0 <= h < |npl| ==> fresh(wCopy[h])
    {
      var outs, deltas, ws, deltaWs, lastDeltaWs, wCopies := AllocateLayers(npl);
      nOfNeurons, x, dX, w, deltaW, lastDeltaW, wCopy := npl, outs, deltas, ws, deltaWs, lastDeltaWs, wCopies;
    }

    /** feedInputs: the input layer takes the pattern's inputs; nothing else changes. */
    method FeedInputs(input: seq<real>)
      requires Valid() && |nOfNeurons| > 0 && |input| == nOfNeurons[0]
      modifies x[0]
      ensures Valid() && unchanged(this)
      ensures State() == NetworkModel.FeedInputs(nOfNeurons, old(State()), input)
    {
      var j := 0;
      while j < nOfNeurons[0]
        invariant 0 <= j <= nOfNeurons[0]
        invariant forall i :: 0 <= i < nOfNeurons[0] ==> x[0][i] == if i < j then input[i] else old(x[0][i])
      {
        x[0][j] := input[j];
        j := j + 1;
      }
      assert x[0][..] == input;
      assert forall h :: 0 <= h < |x| ==> X()[h] == old(X())[0 := input][h];
    }

    /** getOutputs: the output layer's activations are written to the front of output. */
    method GetOutputs(output: array<real>)
      requires Valid() && |nOfNeurons| > 0 && output.Length >= nOfNeurons[|nOfNeurons| - 1]
      requires forall h :: 0 <= h < |nOfNeurons| ==> output != x[h] && output != dX[h]
      modifies output
      ensures output[..nOfNeurons[|nOfNeurons| - 1]] == X()[|nOfNeurons| - 1]
      ensures output[nOfNeurons[|nOfNeurons| - 1]..] == old(output[nOfNeurons[|nOfNeurons| - 1]..])
      ensures State() == old(State())
    {
      var last := |nOfNeurons| - 1;
      var j := 0;
      while j < nOfNeurons[last]
        invariant 0 <= j <= nOfNeurons[last]
        invariant forall i :: 0 <= i < output.Length ==> output[i] == if i < j then x[last][i] else old(output[i])
      {
        output[j] := x[last][j];
        j := j + 1;
      }
      assert output[..nOfNeurons[last]] == x[last][..];
      assert forall k :: 0 <= k < |x| ==> X()[k] == old(X())[k];
      assert forall k :: 0 <= k < |dX| ==> DX()[k] == old(DX())[k];
    }

    /** copyWeights: every wCopy vector becomes a copy of its w vector. */
    method CopyWeights()
      requires Valid()
      modifies wCopy
      ensures Valid() && unchanged(this)
      ensures State() == NetworkModel.CopyWeights(old(State()))
    {
      CopyMatrices(w, wCopy);
      OnlySnapshotChanged();
    }

    /** restoreWeights: every w vector becomes a copy of its wCopy vector. */
    method RestoreWeights()
      requires Valid()
      modifies w
      ensures Valid() && unchanged(this)
      ensures State() == NetworkModel.RestoreWeights(old(State()))
    {
      CopyMatrices(wCopy, w);
      OnlyWeightsChanged();
      assert forall k :: 0 <= k < |w| ==> LastDeltaW()[k] == old(LastDeltaW())[k];
    }

    /** forwardPropagate: layers 1 .. L-1 in increasing order. */
    method ForwardPropagate()
      requires Valid()
      modifies x
      ensures Valid() && unchanged(this)
      ensures State() == Forward(nOfNeurons, old(State()), bias, sigma)
    {
      ValidShaped();
      var npl := nOfNeurons;
      if |npl| == 0 {
        return;
      }
      ghost var n0 := State();
      Propagate(npl, x, w, bias, sigma);
      OnlyActivationsChanged();
      ghost var n1 := Forward(npl, n0, bias, sigma);
      assert n1 == n0.(x := n1.x);
      assert forall k :: 0 <= k < |npl| ==> X()[k] == n1.x[k];
      assert X() == n1.x;
    }

    // Frames: a step that writes only some of the arrays changes only their views.

    twostate lemma OnlyActivationsChanged()
      requires old(Valid()) && unchanged(this) && unchanged(dX, w, deltaW, lastDeltaW, wCopy)
      ensures Valid()
      ensures State() == old(State()).(x := X())
    {
      assert forall k :: 0 <= k < |dX| ==> DX()[k] == old(DX())[k];
      assert forall k :: 0 <= k < |w| ==> W()[k] == old(W())[k];
      assert forall k :: 0 <= k < |w| ==> DeltaW()[k] == old(DeltaW())[k];
      assert forall k :: 0 <= k < |w| ==> LastDeltaW()[k] == old(LastDeltaW())[k];
      assert forall k :: 0 <= k < |w| ==> WCopy()[k] == old(WCopy())[k];
    }

    twostate lemma OnlySignalsChanged()
      requires old(Valid()) && unchanged(this) && unchanged(x, w, deltaW, lastDeltaW, wCopy)
      ensures Valid()
      ensures State() == old(State()).(dX := DX())
    {
      assert forall k :: 0 <= k < |x| ==> X()[k] == old(X())[k];
      assert forall k :: 0 <= k < |w| ==> W()[k] == old(W())[k];
      assert forall k :: 0 <= k < |w| ==> DeltaW()[k] == old(DeltaW())[k];
      assert forall k :: 0 <= k < |w| ==> LastDeltaW()[k] == old(LastDeltaW())[k];
      assert forall k :: 0 <= k < |w| ==> WCopy()[k] == old(WCopy())[k];
    }

    twostate lemma OnlyChangesChanged(changes: seq<Matrix>)
      requires old(Valid()) && unchanged(this) && unchanged(x, dX, w, lastDeltaW, wCopy)
      requires |changes| == |deltaW| && forall k :: 0 <= k < |deltaW| ==> Mat(deltaW[k]) == changes[k]
      ensures Valid()
      ensures State() == old(State()).(deltaW := changes)
    {
      assert forall k :: 0 <= k < |x| ==> DeltaW()[k] == changes[k];
      assert forall k :: 0 <= k < |x| ==> X()[k] == old(X())[k];
      assert forall k :: 0 <= k < |x| ==> DX()[k] == old(DX())[k];
      assert forall k :: 0 <= k < |w| ==> W()[k] == old(W())[k];
      assert forall k :: 0 <= k < |w| ==> LastDeltaW()[k] == old(LastDeltaW())[k];
      assert forall k :: 0 <= k < |w| ==> WCopy()[k] == old(WCopy())[k];
    }

    twostate lemma OnlyWeightsChanged()
      requires old(Valid()) && unchanged(this) && unchanged(x, dX, deltaW, wCopy)
      ensures Valid()
      ensures State() == old(State()).(w := W(), lastDeltaW := LastDeltaW())
    {
      assert forall k :: 0 <= k < |x| ==> X()[k] == old(X())[k];
      assert forall k :: 0 <= k < |x| ==> DX()[k] == old(DX())[k];
      assert forall k :: 0 <= k < |w| ==> DeltaW()[k] == old(DeltaW())[k];
      assert forall k :: 0 <= k < |w| ==> WCopy()[k] == old(WCopy())[k];
    }

    twostate lemma OnlySnapshotChanged()
      requires old(Valid()) && unchanged(this) && unchanged(x, dX, w, deltaW, lastDeltaW)
      ensures Valid()
      ensures State() == old(State()).(wCopy := WCopy())
    {
      assert forall k :: 0 <= k < |x| ==> X()[k] == old(X())[k];
      assert forall k :: 0 <= k < |x| ==> DX()[k] == old(DX())[k];
      assert forall k :: 0 <= k < |w| ==> W()[k] == old(W())[k];
      assert forall k :: 0 <= k < |w| ==> DeltaW()[k] == old(DeltaW())[k];
      assert forall k :: 0 <= k < |w| ==> LastDeltaW()[k] == old(LastDeltaW())[k];
    }

    /** backpropagateError: the output layer's signals from target, then the hidden layers
        from the top down; layer 0 keeps its signals when there is a hidden layer. */
    method BackpropagateError(target: seq<real>)
      requires Valid() && |nOfNeurons| > 0 && |target| == nOfNeurons[|nOfNeurons| - 1]
      modifies dX
      ensures Valid() && unchanged(this)
      ensures State() == Backpropagate(nOfNeurons, old(State()), target)
    {
      ValidShaped();
      var npl := nOfNeurons;
      ghost var n0 := State();
      BackpropagateSignals(npl, x, dX, w, target, n0.x, n0.w);
      OnlySignalsChanged();
      ghost var n1 := Backpropagate(npl, n0, target);
      assert n1 == n0.(dX := n1.dX);
      assert forall k :: 0 <= k < |npl| ==> DX()[k] == n1.dX[k];
      assert DX() == n1.dX;
    }

    /** accumulateChange: every trained slot of deltaW from layer 1 on gains the error
        signal of its neuron times the activation arriving over the connection. */
    method AccumulateChange()
      requires Valid()
      modifies deltaW
      ensures Valid() && unchanged(this)
      ensures State() == Accumulate(nOfNeurons, old(State()), bias)
    {
      ValidShaped();
      var npl := nOfNeurons;
      ghost var n0 := State();
      Views();
      AccumulateAllChanges(npl, x, dX, deltaW, bias, n0.x, n0.dX, n0.deltaW);
      OnlyChangesChanged(AccumulateLayers(npl, n0.deltaW, n0.dX, n0.x, bias));
    }

    /** weightAdjustment: the momentum rule on every trained slot from layer 1 on, and
        lastDeltaW takes the change just applied. */
    method WeightAdjustment()
      requires Valid()
      modifies w, lastDeltaW
      ensures Valid() && unchanged(this)
      ensures State() == Adjust(nOfNeurons, old(State()), Settings())
    {
      ValidShaped();
      var npl := nOfNeurons;
      ghost var n0 := State();
      AdjustAllWeights(npl, w, deltaW, lastDeltaW, Settings(), n0.w, n0.deltaW, n0.lastDeltaW);
      OnlyWeightsChanged();
      ghost var n1 := Adjust(npl, n0, Settings());
      assert n1 == n0.(w := n1.w, lastDeltaW := n1.lastDeltaW);
      assert forall k :: 0 <= k < |npl| ==> W()[k] == n1.w[k] && LastDeltaW()[k] == n1.lastDeltaW[k];
      assert W() == n1.w && LastDeltaW() == n1.lastDeltaW;
    }

    /** The deltaW reset at the start of performEpochOnline. */
    method ResetChanges()
      requires Valid()
      modifies deltaW
      ensures Valid() && unchanged(this)
      ensures State() == ZeroGradients(nOfNeurons, old(State()), bias)
    {
      ValidShaped();
      var npl := nOfNeurons;
      ghost var n0 := State();
      ZeroAllChanges(npl, deltaW, bias, n0.deltaW);
      OnlyChangesChanged(ZeroLayers(npl, n0.deltaW, bias));
    }

    /** performEpochOnline: one pattern of online training. */
    method PerformEpochOnline(input: seq<real>, target: seq<real>)
      requires Valid() && |nOfNeurons| > 0
      requires |input| == nOfNeurons[0] && |target| == nOfNeurons[|nOfNeurons| - 1]
      modifies x, dX, w, deltaW, lastDeltaW
      ensures Valid() && unchanged(this)
      ensures State() == OnlineStep(nOfNeurons, old(State()), input, target, Settings(), sigma)
    {
      ValidShaped();
      ResetChanges();
      FeedInputs(input);
      ForwardPropagate();
      BackpropagateError(target);
      AccumulateChange();
      WeightAdjustment();
    }

    /** obtainError: the mean squared error of the output layer against target. */
    method ObtainError(target: seq<real>) returns (error: real)
      requires Valid() && |nOfNeurons| > 0
      requires |target| == nOfNeurons[|nOfNeurons| - 1] && nOfNeurons[|nOfNeurons| - 1] > 0
      ensures error == MeanSquaredError(target, X()[|nOfNeurons| - 1])
    {
      var last := |nOfNeurons| - 1;
      error := 0.0;
      var j := 0;
      while j < nOfNeurons[last]
        invariant 0 <= j <= nOfNeurons[last]
        invariant error == SquaredError(target, x[last][..], j)
      {
        error := error + Square(target[j] - x[last][j]);
        j := j + 1;
      }
      error := error / nOfNeurons[last] as real;
    }

    /** trainOnline: performEpochOnline on every pattern, in order. */
    method TrainOnline(d: Dataset)
      requires Valid() && Fits(nOfNeurons, d)
      modifies x, dX, w, deltaW, lastDeltaW
      ensures Valid() && unchanged(this)
      ensures State() == Epoch(nOfNeurons, old(State()), d, Settings(), sigma)
    {
      ValidShaped();
      ghost var n0 := State();
      var i := 0;
      while i < d.NOfPatterns()
        invariant 0 <= i <= d.NOfPatterns()
        invariant Valid() && unchanged(this)
        invariant State() == NetworkModel.TrainOnline(nOfNeurons, n0, d, Settings(), sigma, i)
      {
        TrainNext(d, i, n0);
        i := i + 1;
      }
    }

    /** One pass of the loop in trainOnline: pattern i after the patterns before it. */
    method TrainNext(d: Dataset, i: nat, ghost n0: Net)
      requires Valid() && Fits(nOfNeurons, d) && Shaped(nOfNeurons, n0) && i < d.NOfPatterns()
      requires State() == NetworkModel.TrainOnline(nOfNeurons, n0, d, Settings(), sigma, i)
      modifies x, dX, w, deltaW, lastDeltaW
      ensures Valid() && unchanged(this)
      ensures State() == NetworkModel.TrainOnline(nOfNeurons, n0, d, Settings(), sigma, i + 1)
    {
      TrainOnlineNext(nOfNeurons, n0, d, Settings(), sigma, i);
      PerformEpochOnline(d.inputs[i], d.outputs[i]);
    }

    /** One pattern of test: feed it, propagate it and measure the output error. Only the
        activations change. */
    method PatternTest(input: seq<real>, target: seq<real>) returns (error: real)
      requires Valid() && |nOfNeurons| > 0 && |input| == nOfNeurons[0]
      requires |target| == nOfNeurons[|nOfNeurons| - 1] && nOfNeurons[|nOfNeurons| - 1] > 0
      modifies x
      ensures Valid() && unchanged(this)
      ensures error == PatternError(nOfNeurons, W(), bias, sigma, input, target)
      ensures State() == old(State()).(x := X())
    {
      ValidShaped();
      PatternErrorSpec(nOfNeurons, State(), bias, sigma, input, target);
      FeedInputs(input);
      ForwardPropagate();
      error := ObtainError(target);
    }

    /** One pass of the loop in test: the error of pattern i added to the sum of the errors
        of the patterns before it. */
    method TestNext(d: Dataset, i: nat, error: real, ghost npl: seq<nat>, ghost ws: seq<Matrix>, ghost n0: Net)
      returns (error': real)
      requires Valid() && npl == nOfNeurons && Fits(npl, d) && npl[|npl| - 1] > 0 && i < d.NOfPatterns()
      requires State() == n0.(x := X()) && W() == ws
      requires error == TestSum(npl, ws, bias, sigma, d, i)
      modifies x
      ensures Valid() && unchanged(this)
      ensures State() == n0.(x := X()) && W() == ws
      ensures error' == TestSum(npl, ws, bias, sigma, d, i + 1)
    {
      TestSumNext(npl, ws, bias, sigma, d, i);
      var e := PatternTest(d.inputs[i], d.outputs[i]);
      error' := error + e;
    }

    /** test: the mean over the patterns of obtainError after feeding and propagating each
        one; only the activations change. */
    method Test(d: Dataset) returns (error: real)
      requires Valid() && Fits(nOfNeurons, d)
      requires nOfNeurons[|nOfNeurons| - 1] > 0 && d.NOfPatterns() > 0
      modifies x
      ensures Valid() && unchanged(this)
      ensures error == TestError(nOfNeurons, W(), bias, sigma, d)
      ensures State() == old(State()).(x := X())
    {
      ghost var n0, npl, ws := State(), nOfNeurons, W();
      error := 0.0;
      var i := 0;
      while i < d.NOfPatterns()
        invariant 0 <= i <= d.NOfPatterns()
        invariant Valid() && unchanged(this) && npl == nOfNeurons
        invariant State() == n0.(x := X()) && W() == ws
        invariant error == TestSum(npl, ws, bias, sigma, d, i)
      {
        error := TestNext(d, i, error, npl, ws, n0);
        i := i + 1;
      }
      error := error / d.NOfPatterns() as real;
    }

    /** randomWeights: every weight from layer 1 on takes the next of the given random
        values, in file order; nothing else changes. */
    method RandomWeights(values: seq<real>)
      requires Valid() && |values| >= WeightCount(nOfNeurons)
      modifies w
      ensures Valid() && unchanged(this)
      ensures State() == old(State()).(w := Unflatten(nOfNeurons, values))
    {
      StoreWeights(nOfNeurons, w, values);
      OnlyWeightsChanged();
      assert forall k :: 0 <= k < |w| ==> LastDeltaW()[k] == old(LastDeltaW())[k];
      assert forall k :: 0 <= k < |w| ==> W()[k] == Unflatten(nOfNeurons, values)[k];
    }

    /** saveWeights: the header, then the weights in file order. */
    method SaveWeights() returns (tokens: seq<real>)
      requires Valid()
      ensures tokens == Save(nOfNeurons, W())
    {
      ValidShaped();
      var npl := nOfNeurons;
      tokens := [|npl| as real];
      var i := 0;
      while i < |npl|
        invariant 0 <= i <= |npl|
        invariant tokens == Header(npl)[..i + 1]
      {
        assert Header(npl)[..i + 2] == Header(npl)[..i + 1] + [npl[i] as real];
        tokens := tokens + [npl[i] as real];
        i := i + 1;
      }
      Views();
      tokens := AppendWeights(npl, w, tokens, W());
    }

    /** readWeights: the header gives the layer sizes, initialize builds the network and the
        weights are read in file order. A header entry that is not a natural number, or a
        file that ends early, makes it fail and leaves the network as it was. */
    method ReadWeights(tokens: seq<real>) returns (ok: bool)
      modifies this
      ensures ok <==> Read(tokens).Some?
      ensures ok ==> Valid() && nOfNeurons == Read(tokens).value.npl && W() == Read(tokens).value.w
      ensures ok ==> Settings() == old(Settings())
      ensures ok ==> forall h {:trigger x[h]} :: 0 <= h < |nOfNeurons| ==>
        fresh(x[h]) && x[h][..] == seq(nOfNeurons[h], _ => 1.0)
      ensures ok ==> forall h {:trigger dX[h]} :: 0 <= h < |nOfNeurons| ==>
        fresh(dX[h]) && dX[h][..] == seq(nOfNeurons[h], _ => 0.0)
      ensures ok ==> forall h {:trigger w[h]} :: 0 <= h < |nOfNeurons| ==> fresh(w[h])
      ensures ok ==> forall h {:trigger deltaW[h]} :: 0 <= h < |nOfNeurons| ==> fresh(deltaW[h])
      ensures ok ==> forall h {:trigger lastDeltaW[h]} :: 0 <= h < |nOfNeurons| ==> fresh(lastDeltaW[h])
      ensures ok ==> forall h {:trigger wCopy[h]} :: 0 <= h < |nOfNeurons| ==> fresh(wCopy[h])
      ensures !ok ==> unchanged(this)
    {
      ok := false;
      var header := ParseHeader(tokens);
      if header.None? {
        return;
      }
      var npl := header.value;
      var s := tokens[|npl| + 1..];
      if |s| < WeightCount(npl) {
        return;
      }
      Load(npl, s);
      ok := true;
    }

    /** The end of readWeights: initialize the network for the layer sizes npl, then read
        its weights in file order from s. */
    method Load(npl: seq<nat>, s: seq<real>)
      requires |s| >= WeightCount(npl)
      modifies this
      ensures Valid() && nOfNeurons == npl && W() == Unflatten(npl, s) && Settings() == old(Settings())
      ensures forall h {:trigger x[h]} :: 0 <= h < |npl| ==> fresh(x[h]) && x[h][..] == seq(npl[h], _ => 1.0)
      ensures forall h {:trigger dX[h]} :: 0 <= h < |npl| ==> fresh(dX[h]) && dX[h][..] == seq(npl[h], _ => 0.0)
      ensures forall h {:trigger w[h]} :: 0 <= h < |npl| ==> fresh(w[h])
      ensures forall h {:trigger deltaW[h]} :: 0 <= h < |npl| ==> fresh(deltaW[h])
      ensures forall h {:trigger lastDeltaW[h]} :: 0 <= h < |npl| ==> fresh(lastDeltaW[h])
      ensures forall h {:trigger wCopy[h]} :: 0 <= h < |npl| ==> fresh(wCopy[h])
    {
      Initialize(npl);
      StoreWeights(npl, w, s);
      assert forall k :: 0 <= k < |npl| ==> W()[k] == Unflatten(npl, s)[k];
    }

    /** The start of one pass of runOnlineBackPropagation's loop: an epoch of online training
        on train, then its mean squared error over train. The ghost arguments are the run so
        far, and the pass extends it by one epoch. */
    method TrainEpoch(train: Dataset, ghost npl: seq<nat>, ghost c: Config, ghost start: Net,
                      ghost nets: seq<Net>, ghost hist: seq<seq<Matrix>>, ghost errs: seq<real>)
      returns (trainError: real)
      requires Valid() && npl == nOfNeurons && c == Settings()
      requires Run(npl, start, train, c, sigma, nets, hist, errs)
      requires nets == [] ==> State() == start
      requires nets != [] ==>
        Shaped(npl, nets[|nets| - 1]) && Continues(npl, nets[|nets| - 1], State(), train, c, sigma)
      modifies x, dX, w, deltaW, lastDeltaW
      ensures Valid() && unchanged(this)
      ensures Run(npl, start, train, c, sigma, nets + [old(State())], hist + [W()], errs + [trainError])
      ensures Shaped(npl, old(State())) && Continues(npl, old(State()), State(), train, c, sigma)
      ensures WCopy() == old(WCopy())
    {
      ValidShaped();
      ghost var n := State();
      RunSnoc(nOfNeurons, start, train, Settings(), sigma, nets, hist, errs, n);
      trainError := TrainAndTest(train);
    }

    /** The first two statements of one pass: trainOnline on train, then the error of the
        weights it left on the same patterns. */
    method TrainAndTest(train: Dataset) returns (trainError: real)
      requires Valid() && Fits(nOfNeurons, train)
      requires nOfNeurons[|nOfNeurons| - 1] > 0 && train.NOfPatterns() > 0
      modifies x, dX, w, deltaW, lastDeltaW
      ensures Valid() && unchanged(this)
      ensures State() == Epoch(nOfNeurons, old(State()), train, Settings(), sigma).(x := X())
      ensures trainError == TestError(nOfNeurons, W(), bias, sigma, train)
    {
      TrainOnline(train);
      trainError := Test(train);
    }

    /** The checks after each epoch of runOnlineBackPropagation. The first epoch, or an error
        below the best so far, records the error, snapshots the weights and clears the counter;
        an error within the tolerance of the best clears the counter; any other error
        increments it. When the counter reaches the patience the snapshot is put back and
        stop is set. t is the bookkeeping before this epoch. */
    method CheckProgress(trainError: real, countTrain: nat, minTrainError: real,
                         iterWithoutImproving: nat, ghost t: Tracker)
      returns (minTrainError': real, iterWithoutImproving': nat, stop: bool)
      requires Valid() && t.epochs == countTrain
      requires t.minTrainError == minTrainError && t.iterWithoutImproving == iterWithoutImproving
      modifies w, wCopy
      ensures Valid() && unchanged(this)
      ensures minTrainError' == Update(t, trainError).minTrainError
      ensures iterWithoutImproving' == Update(t, trainError).iterWithoutImproving
      ensures stop <==> iterWithoutImproving' == Patience
      ensures if Improves(t, trainError) then WCopy() == old(W()) else WCopy() == old(WCopy())
      ensures if stop then W() == WCopy() else W() == old(W())
      ensures State() == old(State()).(w := W(), wCopy := WCopy())
    {
      minTrainError', iterWithoutImproving' := minTrainError, iterWithoutImproving;
      if countTrain == 0 || trainError < minTrainError {
        minTrainError' := trainError;
        CopyWeights();
        iterWithoutImproving' := 0;
      } else if trainError - minTrainError < Tolerance {
        iterWithoutImproving' := 0;
      } else {
        iterWithoutImproving' := iterWithoutImproving + 1;
      }
      stop := iterWithoutImproving' == Patience;
      if stop {
        RestoreWeights();
      }
    }

    /** One pass of the do-while loop of runOnlineBackPropagation: an epoch of online
        training, its training error, and the early-stopping check. It stands on the history
        of the epochs before it (nets, hist, errs) and extends it by this epoch. */
    method TrainStep(train: Dataset, countTrain: nat, minTrainError: real, iterWithoutImproving: nat,
                     ghost npl: seq<nat>, ghost c: Config, ghost start: Net,
                     ghost nets: seq<Net>, ghost hist: seq<seq<Matrix>>, ghost errs: seq<real>)
      returns (trainError: real, minTrainError': real, iterWithoutImproving': nat, stop: bool,
               ghost n: Net, ghost trained: seq<Matrix>)
      requires Valid() && npl == nOfNeurons && c == Settings()
      requires Run(npl, start, train, c, sigma, nets, hist, errs)
      requires countTrain == |errs| && |hist| == |errs| && |nets| == |errs|
      requires Trace(errs).minTrainError == minTrainError
      requires Trace(errs).iterWithoutImproving == iterWithoutImproving < Patience
      requires nets == [] ==> State() == start
      requires errs != [] ==> WCopy() == hist[Trace(errs).best]
      requires nets != [] ==>
        W() == hist[|nets| - 1] && Shaped(npl, nets[|nets| - 1]) &&
        Continues(npl, nets[|nets| - 1], State(), train, c, sigma)
      modifies x, dX, w, deltaW, lastDeltaW, wCopy
      ensures Valid() && unchanged(this)
      ensures n == old(State())
      ensures Run(npl, start, train, c, sigma, nets + [n], hist + [trained], errs + [trainError])
      ensures Trace(errs + [trainError]).minTrainError == minTrainError'
      ensures Trace(errs + [trainError]).iterWithoutImproving == iterWithoutImproving'
      ensures stop <==> Exhausted(errs + [trainError])
      ensures stop || iterWithoutImproving' < Patience
      ensures WCopy() == (hist + [trained])[Trace(errs + [trainError]).best]
      ensures stop ==> W() == WCopy()
      ensures !stop ==> W() == trained && Shaped(npl, n) && Continues(npl, n, State(), train, c, sigma)
    {
      n := State();
      trainError := TrainEpoch(train, npl, c, start, nets, hist, errs);
      ghost var after := State();
      trained := W();
      ghost var t := Trace(errs);
      TraceSnoc(errs, trainError);
      minTrainError', iterWithoutImproving', stop := CheckProgress(trainError, countTrain, minTrainError, iterWithoutImproving, t);
      ContinuesSnapshot(npl, n, after, train, c, sigma, WCopy());
    }

    /** The do-while loop of runOnlineBackPropagation: epochs until maxiter of them ran or the
        counter reached the patience. nets are the networks each epoch started from, hist the
        weights after each epoch and errs the training errors. */
    method TrainLoop(train: Dataset, maxiter: int, ghost npl: seq<nat>, ghost c: Config)
      returns (minTrainError: real, ghost nets: seq<Net>, ghost hist: seq<seq<Matrix>>, ghost errs: seq<real>)
      requires Valid() && npl == nOfNeurons && c == Settings() && Fits(npl, train)
      requires npl[|npl| - 1] > 0 && train.NOfPatterns() > 0
      modifies x, dX, w, deltaW, lastDeltaW, wCopy
      ensures Valid() && unchanged(this)
      ensures Run(npl, old(State()), train, c, sigma, nets, hist, errs)
      ensures |errs| > 0 && |hist| == |errs| && |nets| == |errs|
      ensures Continued(errs, maxiter)
      ensures |errs| >= maxiter || Exhausted(errs)
      ensures minTrainError == Trace(errs).minTrainError
      ensures WCopy() == hist[Trace(errs).best]
      ensures if Exhausted(errs) then W() == hist[Trace(errs).best] else W() == hist[|errs| - 1]
    {
      var countTrain := 0;
      ghost var start := State();
      minTrainError := 0.0;
      var iterWithoutImproving: nat := 0;
      nets, hist, errs := [], [], [];
      var running := true;
      while running
        invariant Valid() && unchanged(this) && npl == nOfNeurons && c == Settings()
        invariant Run(npl, start, train, c, sigma, nets, hist, errs)
        invariant |hist| == |errs| && |nets| == |errs|
        invariant Trace(errs).minTrainError == minTrainError
        invariant nets == [] ==> running && countTrain == 0 && State() == start
        invariant errs != [] ==> WCopy() == hist[Trace(errs).best]
        invariant Continued(errs, maxiter)
        invariant running ==> countTrain == |errs| && (errs == [] || |errs| < maxiter)
        invariant running ==> Trace(errs).iterWithoutImproving == iterWithoutImproving < Patience
        invariant running && nets != [] ==>
          W() == hist[|nets| - 1] && Shaped(npl, nets[|nets| - 1]) &&
          Continues(npl, nets[|nets| - 1], State(), train, c, sigma)
        invariant !running ==> errs != [] && (|errs| >= maxiter || Exhausted(errs))
        invariant !running ==> if Exhausted(errs) then W() == hist[Trace(errs).best] else W() == hist[|errs| - 1]
        decreases running, maxiter - countTrain
      {
        countTrain, minTrainError, iterWithoutImproving, running, nets, hist, errs :=
          Advance(train, maxiter, countTrain, minTrainError, iterWithoutImproving, npl, c, start, nets, hist, errs);
      }
    }

    /** The bookkeeping of one pass of the loop in TrainLoop: the pass itself, the epoch it
        adds to the history, and the loop condition of the do-while. */
    method Advance(train: Dataset, maxiter: int, countTrain: int, minTrainError: real, iterWithoutImproving: nat,
                   ghost npl: seq<nat>, ghost c: Config, ghost start: Net,
                   ghost nets: seq<Net>, ghost hist: seq<seq<Matrix>>, ghost errs: seq<real>)
      returns (countTrain': int, minTrainError': real, iterWithoutImproving': nat, running: bool,
               ghost nets': seq<Net>, ghost hist': seq<seq<Matrix>>, ghost errs': seq<real>)
      requires Valid() && npl == nOfNeurons && c == Settings()
      requires Run(npl, start, train, c, sigma, nets, hist, errs)
      requires |hist| == |errs| && |nets| == |errs|
      requires Trace(errs).minTrainError == minTrainError
      requires nets == [] ==> countTrain == 0 && State() == start
      requires errs != [] ==> WCopy() == hist[Trace(errs).best]
      requires Continued(errs, maxiter)
      requires countTrain == |errs| && (errs == [] || |errs| < maxiter)
      requires Trace(errs).iterWithoutImproving == iterWithoutImproving < Patience
      requires nets != [] ==>
        W() == hist[|nets| - 1] && Shaped(npl, nets[|nets| - 1]) &&
        Continues(npl, nets[|nets| - 1], State(), train, c, sigma)
      modifies x, dX, w, deltaW, lastDeltaW, wCopy
      ensures Valid() && unchanged(this)
      ensures Run(npl, start, train, c, sigma, nets', hist', errs')
      ensures |hist'| == |errs'| && |nets'| == |errs'| && nets' != []
      ensures Trace(errs').minTrainError == minTrainError'
      ensures errs' != [] ==> WCopy() == hist'[Trace(errs').best]
      ensures Continued(errs', maxiter)
      ensures running ==> countTrain' == |errs'| && (errs' == [] || |errs'| < maxiter)
      ensures running ==> Trace(errs').iterWithoutImproving == iterWithoutImproving' < Patience
      ensures running && nets' != [] ==>
        W() == hist'[|nets'| - 1] && Shaped(npl, nets'[|nets'| - 1]) &&
        Continues(npl, nets'[|nets'| - 1], State(), train, c, sigma)
      ensures !running ==> errs' != [] && (|errs'| >= maxiter || Exhausted(errs'))
      ensures !running ==> if Exhausted(errs') then W() == hist'[Trace(errs').best] else W() == hist'[|errs'| - 1]
      ensures 0 <= maxiter - countTrain' < maxiter - countTrain || !running
    {
      var trainError, stop;
      ghost var n, trained;
      trainError, minTrainError', iterWithoutImproving', stop, n, trained :=
        TrainStep(train, countTrain, minTrainError, iterWithoutImproving, npl, c, start, nets, hist, errs);
      ContinuedSnoc(errs, trainError, maxiter);
      nets', hist', errs' := nets + [n], hist + [trained], errs + [trainError];
      countTrain' := countTrain;
      if stop {
        countTrain' := maxiter;
      }
      countTrain' := countTrain' + 1;
      running := countTrain' < maxiter;
    }

    /** runOnlineBackPropagation: random weights, then the training loop, and the test error
        at the end. The training error returned is the smallest one seen. values are the
        random draws; start is the network the first epoch starts from. */
    method RunOnlineBackPropagation(train: Dataset, test: Dataset, maxiter: int, values: seq<real>)
      returns (errorTrain: real, errorTest: real, ghost npl: seq<nat>, ghost c: Config, ghost start: Net,
               ghost nets: seq<Net>, ghost hist: seq<seq<Matrix>>, ghost errs: seq<real>)
      requires Valid() && Fits(nOfNeurons, train) && Fits(nOfNeurons, test)
      requires nOfNeurons[|nOfNeurons| - 1] > 0 && train.NOfPatterns() > 0 && test.NOfPatterns() > 0
      requires |values| >= WeightCount(nOfNeurons)
      modifies x, dX, w, deltaW, lastDeltaW, wCopy
      ensures Valid() && unchanged(this)
      ensures npl == nOfNeurons && c == Settings() && start == old(State()).(w := Unflatten(npl, values))
      ensures Run(npl, start, train, c, sigma, nets, hist, errs)
      ensures |errs| > 0 && |hist| == |errs| && |nets| == |errs|
      ensures Continued(errs, maxiter)
      ensures |errs| >= maxiter || Exhausted(errs)
      ensures |errs| <= maxiter || |errs| == 1
      ensures Trace(errs).iterWithoutImproving <= Patience
      ensures errorTrain == MinOf(errs) == errs[Trace(errs).best]
      ensures WCopy() == hist[Trace(errs).best]
      ensures if Exhausted(errs) then W() == hist[Trace(errs).best] else W() == hist[|errs| - 1]
      ensures errorTest == TestError(nOfNeurons, W(), bias, sigma, test)
    {
      RandomWeights(values);
      npl, c, start := nOfNeurons, Settings(), State();
      errorTrain, errorTest, nets, hist, errs := TrainThenTest(train, test, maxiter, npl, c);
    }

    /** runOnlineBackPropagation after randomWeights: the training loop from the current
        weights, then the test error of the weights it leaves. */
    method TrainThenTest(train: Dataset, test: Dataset, maxiter: int, ghost npl: seq<nat>, ghost c: Config)
      returns (errorTrain: real, errorTest: real,
               ghost nets: seq<Net>, ghost hist: seq<seq<Matrix>>, ghost errs: seq<real>)
      requires Valid() && npl == nOfNeurons && c == Settings() && Fits(npl, train) && Fits(npl, test)
      requires npl[|npl| - 1] > 0 && train.NOfPatterns() > 0 && test.NOfPatterns() > 0
      modifies x, dX, w, deltaW, lastDeltaW, wCopy
      ensures Valid() && unchanged(this)
      ensures Run(npl, old(State()), train, c, sigma, nets, hist, errs)
      ensures |errs| > 0 && |hist| == |errs| && |nets| == |errs|
      ensures Continued(errs, maxiter)
      ensures |errs| >= maxiter || Exhausted(errs)
      ensures |errs| <= maxiter || |errs| == 1
      ensures Trace(errs).iterWithoutImproving <= Patience
      ensures errorTrain == MinOf(errs) == errs[Trace(errs).best]
      ensures WCopy() == hist[Trace(errs).best]
      ensures if Exhausted(errs) then W() == hist[Trace(errs).best] else W() == hist[|errs| - 1]
      ensures errorTest == TestError(npl, W(), c.bias, sigma, test)
    {
      errorTrain, nets, hist, errs := TrainLoop(train, maxiter, npl, c);
      errorTest := Test(test);
      MinTrainError(errs);
      CounterBound(errs, maxiter);
    }
  }
}
