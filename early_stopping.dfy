/** The early-stopping bookkeeping of runOnlineBackPropagation, over the sequence of training
    errors measured after each epoch. */
module EarlyStopping {

  /** Epochs in a row without improvement after which training stops. */
  const Patience: nat := 50

  /** An error worse than the best one by less than this does not count against the network. */
  const Tolerance: real := 0.00001

  /** The loop's bookkeeping after some epochs: how many epochs ran, the smallest training
      error so far, the epochs in a row without improvement, and the epoch whose weights
      the snapshot holds. */
  datatype Tracker = Tracker(epochs: nat, minTrainError: real, iterWithoutImproving: nat, best: nat)

  /** Before the first epoch: minTrainError starts at 0; the counter is overwritten by the
      first epoch, which always takes the snapshot branch. */
  const Start := Tracker(0, 0.0, 0, 0)

  /** The snapshot branch: the first epoch, or an error strictly below the best so far. */
  predicate Improves(t: Tracker, e: real)
  {
    t.epochs == 0 || e < t.minTrainError
  }

  /** One epoch's check, with training error e. */
  function Update(t: Tracker, e: real): (r: Tracker)
    ensures r.epochs == t.epochs + 1
    ensures t.epochs > 0 ==> r.minTrainError == Min(t.minTrainError, e)
    ensures r.iterWithoutImproving <= t.iterWithoutImproving + 1
    ensures r.iterWithoutImproving > 0 <==> !Improves(t, e) && e - t.minTrainError >= Tolerance
  {
    if Improves(t, e) then Tracker(t.epochs + 1, e, 0, t.epochs)
    else if e - t.minTrainError < Tolerance then t.(epochs := t.epochs + 1, iterWithoutImproving := 0)
    else t.(epochs := t.epochs + 1, iterWithoutImproving := t.iterWithoutImproving + 1)
  }

  /** The bookkeeping after the epochs with training errors errs. */
  function Trace(errs: seq<real>): (r: Tracker)
    ensures r.epochs == |errs|
    ensures errs != [] ==> r.best < |errs|
    ensures errs != [] ==> r.iterWithoutImproving < |errs|
  {
    if errs == [] then Start else Update(Trace(errs[..|errs| - 1]), errs[|errs| - 1])
  }

  /** The training stops after the epochs errs when the counter reaches the patience. */
  predicate Exhausted(errs: seq<real>): (r: bool)
    ensures r ==> |errs| > Patience
  {
    Trace(errs).iterWithoutImproving == Patience
  }

  /** Training went on after each of the first epochs of errs: every earlier epoch was below
      the iteration limit and had not exhausted the patience. */
  predicate Continued(errs: seq<real>, maxiter: int): (r: bool)
    ensures r && |errs| > 1 ==> |errs| <= maxiter && !Exhausted(errs[..|errs| - 1])
  {
    forall i :: 0 < i < |errs| ==> i < maxiter && !Exhausted(errs[..i])
  }

  /** One more epoch updates the bookkeeping of the epochs before it. */
  lemma TraceSnoc(errs: seq<real>, e: real)
    ensures Trace(errs + [e]) == Update(Trace(errs), e)
  {
    assert (errs + [e])[..|errs|] == errs;
  }

  /** An epoch run while the loop goes on extends the epochs after which it went on. */
  lemma ContinuedSnoc(errs: seq<real>, e: real, maxiter: int)
    requires Continued(errs, maxiter)
    requires errs != [] ==> |errs| < maxiter && !Exhausted(errs)
    ensures Continued(errs + [e], maxiter)
  {
    var s := errs + [e];
    forall i | 0 < i < |s| ensures i < maxiter && !Exhausted(s[..i]) {
      assert s[..i] == errs[..i];
      if i == |errs| {
        assert errs[..i] == errs;
      }
    }
  }

  // ---------------------------------------------------------------------------
  // Reference definitions

  function Min(a: real, b: real): real
  {
    if b < a then b else a
  }

  /** The smallest value of a non-empty sequence. */
  function MinOf(s: seq<real>): real
    requires |s| > 0
  {
    if |s| == 1 then s[0] else Min(MinOf(s[..|s| - 1]), s[|s| - 1])
  }

  /** Epoch t counts against the network: its error exceeds the best error of the epochs
      before it by at least the tolerance. */
  predicate Worse(s: seq<real>, t: nat)
  {
    0 < t < |s| && s[t] - MinOf(s[..t]) >= Tolerance
  }

  // ---------------------------------------------------------------------------
  // Properties

  /** MinOf is a value of the sequence and no value is below it. */
  lemma {:induction false} MinOfSpec(s: seq<real>)
    requires |s| > 0
    ensures forall i :: 0 <= i < |s| ==> MinOf(s) <= s[i]
    ensures exists i :: 0 <= i < |s| && s[i] == MinOf(s)
  {
    if |s| > 1 {
      var init := s[..|s| - 1];
      MinOfSpec(init);
      var i :| 0 <= i < |init| && init[i] == MinOf(init);
      assert s[i] == init[i];
      if s[|s| - 1] < MinOf(init) {
        assert s[|s| - 1] == MinOf(s);
      } else {
        assert s[i] == MinOf(s);
      }
      forall k | 0 <= k < |s| ensures MinOf(s) <= s[k] {
        if k < |init| {
          assert init[k] == s[k];
        }
      }
    } else {
      assert s[0] == MinOf(s);
    }
  }

  /** The best error never goes up from one epoch to the next. */
  lemma MinOfNonIncreasing(s: seq<real>, k: nat)
    requires 0 < k <= |s|
    ensures MinOf(s) <= MinOf(s[..k])
  {
    MinOfSpec(s[..k]);
    var i :| 0 <= i < k && s[..k][i] == MinOf(s[..k]);
    MinOfSpec(s);
    assert s[i] == s[..k][i];
  }

  /** After at least one epoch the bookkeeping is what the loop promises: minTrainError is
      the smallest error so far, best is the first epoch that reached it, and the counter is
      the number of epochs in a row, ending with the last one, that were worse than the
      best before them by at least the tolerance. */
  lemma {:induction false} TraceSpec(errs: seq<real>)
    requires |errs| > 0
    ensures var t := Trace(errs);
      t.minTrainError == MinOf(errs) &&
      t.best < |errs| && errs[t.best] == MinOf(errs) &&
      (forall i :: 0 <= i < t.best ==> errs[i] > MinOf(errs)) &&
      t.iterWithoutImproving < |errs| &&
      (forall u :: |errs| - t.iterWithoutImproving <= u < |errs| ==> Worse(errs, u)) &&
      !Worse(errs, |errs| - 1 - t.iterWithoutImproving)
  {
    var n := |errs|;
    var init := errs[..n - 1];
    var e := errs[n - 1];
    if n == 1 {
      assert Trace(errs) == Update(Start, e);
    } else {
      TraceSpec(init);
      var p := Trace(init);
      assert Trace(errs) == Update(p, e);
      assert MinOf(errs) == Min(MinOf(init), e);
      assert forall u :: 0 <= u < n - 1 ==> errs[u] == init[u];
      assert forall u :: 0 < u < n - 1 ==> errs[..u] == init[..u];
      assert forall u :: 0 < u < n - 1 ==> (Worse(errs, u) <==> Worse(init, u));
      assert errs[..n - 1] == init;
      if e < p.minTrainError {
        MinOfSpec(init);
        assert Trace(errs).best == n - 1;
      } else if e - p.minTrainError < Tolerance {
        assert !Worse(errs, n - 1);
      } else {
        assert Worse(errs, n - 1);
      }
    }
  }

  /** The smallest training error so far, as the loop records it. */
  lemma MinTrainError(errs: seq<real>)
    requires |errs| > 0
    ensures Trace(errs).minTrainError == MinOf(errs)
    ensures Trace(errs).best < |errs| && errs[Trace(errs).best] == MinOf(errs)
  {
    TraceSpec(errs);
  }

  /** While the loop goes on the counter stays below the patience, so it never passes it. */
  lemma {:induction false} CounterBound(errs: seq<real>, maxiter: int)
    requires Continued(errs, maxiter)
    ensures Trace(errs).iterWithoutImproving <= Patience
  {
    if errs != [] {
      var n := |errs|;
      var init := errs[..n - 1];
      assert Continued(init, maxiter) by {
        forall i | 0 < i < |init| ensures i < maxiter && !Exhausted(init[..i]) {
          assert init[..i] == errs[..i];
        }
      }
      CounterBound(init, maxiter);
      assert Trace(errs) == Update(Trace(init), errs[n - 1]);
      if n > 1 {
        assert !Exhausted(errs[..n - 1]);
      }
    }
  }

  /** The first epoch always takes the snapshot and clears the counter. */
  lemma FirstEpoch(e: real)
    ensures Trace([e]) == Tracker(1, e, 0, 0)
  {
    assert [e][..0] == [];
  }

  /** With no epoch after the first within the tolerance of it, the counter after k epochs
      is k - 1 and the snapshot stays on the first epoch. */
  lemma {:induction false} NoImprovementTrace(errs: seq<real>, k: nat)
    requires 0 < k <= |errs|
    requires forall i :: 0 < i < |errs| ==> errs[i] >= errs[0] + Tolerance
    ensures Trace(errs[..k]) == Tracker(k, errs[0], k - 1, 0)
  {
    if k == 1 {
      assert errs[..1] == [errs[0]];
      FirstEpoch(errs[0]);
    } else {
      NoImprovementTrace(errs, k - 1);
      assert errs[..k] == errs[..k - 1] + [errs[k - 1]];
      TraceSnoc(errs[..k - 1], errs[k - 1]);
    }
  }

  /** The patience at work: when no epoch after the first comes within the tolerance of it,
      training stops right after epoch Patience + 1, not before, and the snapshot it restores
      is the first epoch's. */
  lemma NoImprovementStops(errs: seq<real>)
    requires |errs| == Patience + 1
    requires forall i :: 0 < i < |errs| ==> errs[i] >= errs[0] + Tolerance
    ensures Exhausted(errs) && Trace(errs).best == 0
    ensures forall k :: 0 < k < |errs| ==> !Exhausted(errs[..k])
  {
    NoImprovementTrace(errs, |errs|);
    assert errs[..|errs|] == errs;
    forall k | 0 < k < |errs| ensures !Exhausted(errs[..k]) {
      NoImprovementTrace(errs, k);
    }
  }
}
