/** The arithmetic of single neurons and of the error measures, over exact reals.
    The sigmoid is a parameter `sigma`: nothing here depends on its values. */
module NetworkMath {

  /** Sum of w[i] * v[i] for i < n, accumulated in increasing i. */
  function Dot(w: seq<real>, v: seq<real>, n: nat): real
    requires n <= |w| && n <= |v|
  {
    if n == 0 then 0.0 else Dot(w, v, n - 1) + w[n - 1] * v[n - 1]
  }

  /** Net input of a neuron: its weighted sum over the previous layer plus, when the
      bias is on, the bias weight, stored in the slot after the connections. The bias slot
      acts as the weight of one more input that is 1.0 with the bias on and 0.0 with it off. */
  function NetInput(wj: seq<real>, prev: seq<real>, bias: bool): (r: real)
    requires |wj| == |prev| + 1
    ensures r == Dot(wj, prev + [if bias then 1.0 else 0.0], |prev| + 1)
  {
    DotInputPrefix(wj, prev, prev + [if bias then 1.0 else 0.0], |prev|);
    Dot(wj, prev, |prev|) + (if bias then wj[|prev|] else 0.0)
  }

  /** Activations of a layer whose neuron j has weight vector wh[j]. */
  function LayerOut(wh: seq<seq<real>>, prev: seq<real>, bias: bool, sigma: real -> real): seq<real>
    requires forall j :: 0 <= j < |wh| ==> |wh[j]| == |prev| + 1
  {
    seq(|wh|, j requires 0 <= j < |wh| => sigma(NetInput(wh[j], prev, bias)))
  }

  /** Dot product reads only the first n entries of w. */
  lemma {:induction false} DotPrefix(w: seq<real>, w': seq<real>, v: seq<real>, n: nat)
    requires n <= |w| && n <= |w'| && n <= |v|
    requires w[..n] == w'[..n]
    ensures Dot(w, v, n) == Dot(w', v, n)
  {
    if n > 0 {
      assert w[..n - 1] == w[..n][..n - 1] && w'[..n - 1] == w'[..n][..n - 1];
      assert w[n - 1] == w[..n][n - 1] && w'[n - 1] == w'[..n][n - 1];
      DotPrefix(w, w', v, n - 1);
    }
  }

  /** Dot product reads only the first n entries of v. */
  lemma {:induction false} DotInputPrefix(w: seq<real>, v: seq<real>, v': seq<real>, n: nat)
    requires n <= |w| && n <= |v| && n <= |v'|
    requires v[..n] == v'[..n]
    ensures Dot(w, v, n) == Dot(w, v', n)
  {
    if n > 0 {
      assert v[..n - 1] == v[..n][..n - 1] && v'[..n - 1] == v'[..n][..n - 1];
      assert v[n - 1] == v[..n][n - 1] && v'[n - 1] == v'[..n][n - 1];
      DotInputPrefix(w, v, v', n - 1);
    }
  }

  /** With the bias off, the bias slot of a weight vector does not influence the net input. */
  lemma NetInputIgnoresBiasSlot(wj: seq<real>, wj': seq<real>, prev: seq<real>)
    requires |wj| == |prev| + 1 && |wj'| == |prev| + 1
    requires wj[..|prev|] == wj'[..|prev|]
    ensures NetInput(wj, prev, false) == NetInput(wj', prev, false)
  {
    DotPrefix(wj, wj', prev, |prev|);
  }

  /** pow(d, 2) */
  function Square(d: real): real
  {
    d * d
  }

  /** Sum of the squared differences (t[j] - o[j])^2 for j < n. */
  function SquaredError(t: seq<real>, o: seq<real>, n: nat): real
    requires n <= |t| && n <= |o|
  {
    if n == 0 then 0.0 else SquaredError(t, o, n - 1) + Square(t[n - 1] - o[n - 1])
  }

  /** Mean squared error of outputs o against targets t. */
  function MeanSquaredError(t: seq<real>, o: seq<real>): (r: real)
    requires |t| == |o| && |o| > 0
    ensures r >= 0.0
  {
    SquaredErrorNonNegative(t, o, |o|);
    SquaredError(t, o, |o|) / |o| as real
  }

  lemma {:induction false} SquaredErrorNonNegative(t: seq<real>, o: seq<real>, n: nat)
    requires n <= |t| && n <= |o|
    ensures SquaredError(t, o, n) >= 0.0
  {
    if n > 0 {
      SquaredErrorNonNegative(t, o, n - 1);
      SquareZero(t[n - 1] - o[n - 1]);
    }
  }

  lemma SquareZero(d: real)
    ensures Square(d) >= 0.0
    ensures d == 0.0 || Square(d) > 0.0
  {
    if d > 0.0 {
      calc { Square(d); == d * d; > 0.0; }
    } else if d < 0.0 {
      calc { Square(d); == d * d; == (-d) * (-d); > 0.0; }
    } else {
      calc { Square(d); == 0.0 * 0.0; == 0.0; }
    }
  }

  /** The squared error over the first n entries vanishes exactly when they agree. */
  lemma {:induction false} SquaredErrorZero(t: seq<real>, o: seq<real>, n: nat)
    requires n <= |t| && n <= |o|
    ensures SquaredError(t, o, n) == 0.0 <==> t[..n] == o[..n]
  {
    if n > 0 {
      SquaredErrorZero(t, o, n - 1);
      SquaredErrorNonNegative(t, o, n - 1);
      var d := t[n - 1] - o[n - 1];
      assert SquaredError(t, o, n) == SquaredError(t, o, n - 1) + Square(d);
      assert t[..n] == t[..n - 1] + [t[n - 1]] && o[..n] == o[..n - 1] + [o[n - 1]];
      if t[..n] == o[..n] {
        assert t[..n - 1] == t[..n][..n - 1] && o[..n - 1] == o[..n][..n - 1];
        assert t[n - 1] == t[..n][n - 1] && o[n - 1] == o[..n][n - 1];
        assert d == 0.0;
      }
      SquareZero(d);
      if SquaredError(t, o, n) == 0.0 {
        assert d == 0.0 && SquaredError(t, o, n - 1) == 0.0;
        assert t[..n - 1] == o[..n - 1];
      }
    }
  }

  /** The error measure of obtainError: never negative, zero exactly on a perfect output. */
  lemma MeanSquaredErrorSpec(t: seq<real>, o: seq<real>)
    requires |t| == |o| && |o| > 0
    ensures MeanSquaredError(t, o) >= 0.0
    ensures MeanSquaredError(t, o) == 0.0 <==> t == o
  {
    SquaredErrorNonNegative(t, o, |o|);
    SquaredErrorZero(t, o, |o|);
    assert t[..|o|] == t && o[..|o|] == o;
  }

  /** Sum of a sequence, accumulated left to right. */
  function Sum(s: seq<real>): real
  {
    if s == [] then 0.0 else Sum(s[..|s| - 1]) + s[|s| - 1]
  }

  /** The running sum of test: one more element adds it to the sum of the prefix. */
  lemma SumPrefix(s: seq<real>, i: nat)
    requires i < |s|
    ensures Sum(s[..i + 1]) == Sum(s[..i]) + s[i]
  {
    assert s[..i + 1][..i] == s[..i];
  }

  function Mean(s: seq<real>): real
    requires |s| > 0
  {
    Sum(s) / |s| as real
  }

  lemma {:induction false} SumNonNegative(s: seq<real>)
    requires forall i :: 0 <= i < |s| ==> s[i] >= 0.0
    ensures Sum(s) >= 0.0
    ensures Sum(s) == 0.0 <==> forall i :: 0 <= i < |s| ==> s[i] == 0.0
  {
    if s != [] {
      var s' := s[..|s| - 1];
      assert forall i :: 0 <= i < |s'| ==> s'[i] == s[i];
      SumNonNegative(s');
    }
  }

  /** The mean of non-negative values is non-negative, and zero exactly when all of them are. */
  lemma MeanNonNegative(s: seq<real>)
    requires |s| > 0
    requires forall i :: 0 <= i < |s| ==> s[i] >= 0.0
    ensures Mean(s) >= 0.0
    ensures Mean(s) == 0.0 <==> forall i :: 0 <= i < |s| ==> s[i] == 0.0
  {
    SumNonNegative(s);
  }

  /** Error signal of an output neuron with output o and target t: the derivative of the
      squared error composed with the sigmoid's derivative o * (1 - o). It is zero on
      an output that hits its target and on an output where the sigmoid is saturated. */
  function OutputDelta(t: real, o: real): (r: real)
    ensures o == t ==> r == 0.0
    ensures o == 0.0 || o == 1.0 ==> r == 0.0
  {
    -(t - o) * o * (1.0 - o)
  }

  /** Error signal of a hidden neuron with output o that receives the backpropagated sum s:
      nothing comes back, or the neuron is saturated, and the signal is zero. */
  function HiddenDelta(s: real, o: real): (r: real)
    ensures s == 0.0 ==> r == 0.0
    ensures o == 0.0 || o == 1.0 ==> r == 0.0
  {
    s * o * (1.0 - o)
  }

  /** What accumulateChange adds to deltaW for one connection: the neuron's error signal
      times the activation arriving over the connection. */
  function Contribution(signal: real, input: real): real
  {
    signal * input
  }

  /** The momentum rule of weightAdjustment for one slot:
      w + (-(eta * deltaW) - mu * (eta * lastDeltaW)). */
  function MomentumUpdate(w: real, deltaW: real, lastDeltaW: real, eta: real, mu: real): (r: real)
    ensures mu == 0.0 ==> r == w - eta * deltaW
    ensures deltaW == 0.0 && lastDeltaW == 0.0 ==> r == w
  {
    w + (-(eta * deltaW) - mu * (eta * lastDeltaW))
  }

  /** The update is a step of size eta against the gradient, plus mu times the previous step. */
  lemma MomentumUpdateSpec(w: real, deltaW: real, lastDeltaW: real, eta: real, mu: real)
    ensures MomentumUpdate(w, deltaW, lastDeltaW, eta, mu) == w - eta * deltaW - mu * eta * lastDeltaW
    ensures mu == 0.0 ==> MomentumUpdate(w, deltaW, lastDeltaW, eta, mu) == w - eta * deltaW
    ensures deltaW == 0.0 && lastDeltaW == 0.0 ==> MomentumUpdate(w, deltaW, lastDeltaW, eta, mu) == w
  {
    calc {
      MomentumUpdate(w, deltaW, lastDeltaW, eta, mu);
      w + (-(eta * deltaW) - mu * (eta * lastDeltaW));
      { assert mu * (eta * lastDeltaW) == mu * eta * lastDeltaW; }
      w - eta * deltaW - mu * eta * lastDeltaW;
    }
  }

  /** Error signals of the output layer. */
  function OutputDeltas(t: seq<real>, o: seq<real>): seq<real>
    requires |t| == |o|
  {
    seq(|o|, j requires 0 <= j < |o| => OutputDelta(t[j], o[j]))
  }

  /** Sum of wNext[i][j] * dNext[i] for i < n: the error reaching neuron j from the next layer. */
  function BackSum(wNext: seq<seq<real>>, dNext: seq<real>, j: nat, n: nat): real
    requires n <= |wNext| && n <= |dNext|
    requires forall i :: 0 <= i < n ==> j < |wNext[i]|
  {
    if n == 0 then 0.0 else BackSum(wNext, dNext, j, n - 1) + wNext[n - 1][j] * dNext[n - 1]
  }

  /** Error signals of a hidden layer with outputs o, given the next layer's weights and signals. */
  function HiddenDeltas(wNext: seq<seq<real>>, dNext: seq<real>, o: seq<real>): seq<real>
    requires |wNext| == |dNext|
    requires forall i :: 0 <= i < |wNext| ==> |o| < |wNext[i]|
  {
    seq(|o|, j requires 0 <= j < |o| => HiddenDelta(BackSum(wNext, dNext, j, |dNext|), o[j]))
  }

  /** An output neuron that already hits its target gets a zero error signal; inside the
      sigmoid's range the signal has the sign of o - t. */
  lemma OutputDeltaSign(t: real, o: real)
    requires 0.0 < o < 1.0
    ensures OutputDelta(t, o) == 0.0 <==> o == t
    ensures OutputDelta(t, o) > 0.0 <==> o > t
  {
    var p := o * (1.0 - o);
    PositiveProduct(o, 1.0 - o);
    assert OutputDelta(t, o) == (o - t) * p;
    ScaleSign(o - t, p);
  }

  /** The product of two positive reals is positive. */
  lemma PositiveProduct(a: real, b: real)
    requires a > 0.0 && b > 0.0
    ensures a * b > 0.0
  {
    calc { a * b; > 0.0 * b; == 0.0; }
  }

  /** Scaling by a positive factor keeps the sign. */
  lemma ScaleSign(a: real, p: real)
    requires p > 0.0
    ensures a * p == 0.0 <==> a == 0.0
    ensures a * p > 0.0 <==> a > 0.0
  {
    if a > 0.0 {
      calc { a * p; > 0.0 * p; == 0.0; }
    } else if a < 0.0 {
      calc { a * p; < 0.0 * p; == 0.0; }
    }
  }
}
