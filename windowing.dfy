/** The sliding windows that `LSTMForecaster.__prepare_data` in sigpytch/forecasters.py builds: a
    counting loop that, from a start index, takes a lookback of `lags` points and the `horizon` points
    after it, then moves the start one point on. Slicing is Python's, so a window that runs past the
    end of the series comes out short instead of failing. */
module Windowing {
  import opened PySlices

  /** The lookback of the window starting at `start`: `s[start:start+lags]`. */
  function Lookback<T>(s: seq<T>, start: int, lags: nat): (r: seq<T>)
    ensures 0 <= start ==> |r| == if start + lags <= |s| then lags else if start <= |s| then |s| - start else 0
    ensures 0 <= start ==> forall i :: 0 <= i < |r| ==> r[i] == s[start + i]
  {
    Slice(s, start, start + lags)
  }

  /** The target of the window starting at `start`: `s[start+lags:start+lags+horizon]`. */
  function Target<T>(s: seq<T>, start: int, lags: nat, horizon: nat): (r: seq<T>)
    ensures 0 <= start + lags ==>
      |r| == if start + lags + horizon <= |s| then horizon else if start + lags <= |s| then |s| - (start + lags) else 0
    ensures 0 <= start + lags ==> forall i :: 0 <= i < |r| ==> r[i] == s[start + lags + i]
  {
    Slice(s, start + lags, start + lags + horizon)
  }

  /** The loop `for i in range(count)`: window i starts at `start + i`; a count below 1 gives no window. */
  method SlideForward<T>(s: seq<T>, start: int, count: int, lags: nat, horizon: nat)
    returns (xs: seq<seq<T>>, ys: seq<seq<T>>)
    ensures |xs| == |ys| == if count > 0 then count else 0
    ensures forall k :: 0 <= k < |xs| ==>
      xs[k] == Lookback(s, start + k, lags) && ys[k] == Target(s, start + k, lags, horizon)
  {
    xs, ys := [], [];
    var idx := start;
    var i := 0;
    while i < count
      invariant 0 <= i && (if count > 0 then i <= count else i == 0)
      invariant idx == start + i
      invariant |xs| == |ys| == i
      invariant forall k :: 0 <= k < i ==>
        xs[k] == Lookback(s, start + k, lags) && ys[k] == Target(s, start + k, lags, horizon)
    {
      xs := xs + [Lookback(s, idx, lags)];
      ys := ys + [Target(s, idx, lags, horizon)];
      idx := idx + 1;
      i := i + 1;
    }
  }

  /** The number of training windows, `n_input = train_len - forecast_len` with
      `train_len = len(Y) - forecast_len`. It does not depend on `lags`. */
  function TrainingCount(n: nat, horizon: nat): (c: int)
    ensures c + 2 * horizon == n
    ensures c >= 1 <==> n > 2 * horizon
  {
    (n - horizon) - horizon
  }

  /** The training windows can be stacked by numpy (see TrainingWindowsUniform). */
  predicate Stackable(n: nat, lags: nat, horizon: nat)
  {
    TrainingCount(n, horizon) <= 1 || lags <= horizon + 1
  }

  /** The training windows all have full length (see TrainingWindowsFull). */
  predicate FullLength(n: nat, lags: nat, horizon: nat)
  {
    TrainingCount(n, horizon) <= 0 || lags <= horizon + 1
  }

  /** numpy can stack the windows into arrays: all lookbacks have one length and all targets one length. */
  predicate Uniform<T>(xs: seq<seq<T>>, ys: seq<seq<T>>)
  {
    (forall k :: 0 <= k < |xs| ==> |xs[k]| == |xs[0]|) &&
    (forall k :: 0 <= k < |ys| ==> |ys[k]| == |ys[0]|)
  }

  /** Every lookback holds `lags` points and every target `horizon` points. */
  predicate Full<T>(xs: seq<seq<T>>, ys: seq<seq<T>>, lags: nat, horizon: nat)
  {
    (forall k :: 0 <= k < |xs| ==> |xs[k]| == lags) &&
    (forall k :: 0 <= k < |ys| ==> |ys[k]| == horizon)
  }

  /** The windows SlideForward builds from start 0 are uniform exactly when the lookbacks and targets
      of the first `count` starts have the lengths of those at start 0. */
  lemma UniformWindows<T>(s: seq<T>, count: int, lags: nat, horizon: nat, xs: seq<seq<T>>, ys: seq<seq<T>>)
    requires |xs| == |ys| == if count > 0 then count else 0
    requires forall k :: 0 <= k < |xs| ==>
      xs[k] == Lookback(s, 0 + k, lags) && ys[k] == Target(s, 0 + k, lags, horizon)
    ensures Uniform(xs, ys) <==> forall k :: 0 <= k < count ==>
      |Lookback(s, k, lags)| == |Lookback(s, 0, lags)| &&
      |Target(s, k, lags, horizon)| == |Target(s, 0, lags, horizon)|
  {
    if Uniform(xs, ys) {
      forall k | 0 <= k < count
        ensures |Lookback(s, k, lags)| == |Lookback(s, 0, lags)| &&
                |Target(s, k, lags, horizon)| == |Target(s, 0, lags, horizon)|
      {
        assert xs[k] == Lookback(s, 0 + k, lags) && xs[0] == Lookback(s, 0 + 0, lags);
        assert ys[k] == Target(s, 0 + k, lags, horizon) && ys[0] == Target(s, 0 + 0, lags, horizon);
      }
    }
  }

  /** The windows SlideForward builds from start 0 are full exactly when the lookbacks and targets of
      the first `count` starts are. */
  lemma FullWindows<T>(s: seq<T>, count: int, lags: nat, horizon: nat, xs: seq<seq<T>>, ys: seq<seq<T>>)
    requires |xs| == |ys| == if count > 0 then count else 0
    requires forall k :: 0 <= k < |xs| ==>
      xs[k] == Lookback(s, 0 + k, lags) && ys[k] == Target(s, 0 + k, lags, horizon)
    ensures Full(xs, ys, lags, horizon) <==> forall k :: 0 <= k < count ==>
      |Lookback(s, k, lags)| == lags && |Target(s, k, lags, horizon)| == horizon
  {
    if Full(xs, ys, lags, horizon) {
      forall k | 0 <= k < count
        ensures |Lookback(s, k, lags)| == lags && |Target(s, k, lags, horizon)| == horizon
      {
        assert xs[k] == Lookback(s, 0 + k, lags) && ys[k] == Target(s, 0 + k, lags, horizon);
      }
    }
  }

  /** Line 73 slices the columns of the N x 1 array `Y_scaled[:, :train_len]`: with N > horizon the
      one column is kept whole, otherwise no column is left. */
  lemma ColumnSlice<T>(s: seq<T>, horizon: nat)
    ensures Slice([s], 0, |s| - horizon) == if |s| > horizon then [s] else []
  {
  }

  /** A window that lies inside the series is its lookback of `lags` points followed at once by its
      target of `horizon` points. */
  lemma WindowInside<T>(s: seq<T>, start: int, lags: nat, horizon: nat)
    requires 0 <= start && start + lags + horizon <= |s|
    ensures Lookback(s, start, lags) == s[start..start + lags]
    ensures Target(s, start, lags, horizon) == s[start + lags..start + lags + horizon]
    ensures Lookback(s, start, lags) + Target(s, start, lags, horizon) == s[start..start + lags + horizon]
  {
    assert s[start..start + lags] + s[start + lags..start + lags + horizon] == s[start..start + lags + horizon];
  }

  /** The training windows (start 0, `TrainingCount` of them) all have full length exactly when there
      are none or `lags <= horizon + 1`; otherwise the last one runs past the end of the series. */
  lemma {:induction false} TrainingWindowsFull<T>(s: seq<T>, lags: nat, horizon: nat)
    ensures (forall k :: 0 <= k < TrainingCount(|s|, horizon) ==>
               |Lookback(s, k, lags)| == lags && |Target(s, k, lags, horizon)| == horizon)
        <==> FullLength(|s|, lags, horizon)
  {
    var c := TrainingCount(|s|, horizon);
    if lags <= horizon + 1 {
      forall k | 0 <= k < c ensures |Lookback(s, k, lags)| == lags && |Target(s, k, lags, horizon)| == horizon {
        WindowInside(s, k, lags, horizon);
      }
    } else if c > 0 {
      ShortLastWindow(s, lags, horizon);
    }
  }

  /** Helper: with at least one training window and `lags > horizon + 1`, the last window is short. */
  lemma ShortLastWindow<T>(s: seq<T>, lags: nat, horizon: nat)
    requires TrainingCount(|s|, horizon) > 0 && lags > horizon + 1
    ensures var k := TrainingCount(|s|, horizon) - 1;
      |Lookback(s, k, lags)| != lags || |Target(s, k, lags, horizon)| != horizon
  {
    var k := TrainingCount(|s|, horizon) - 1;
    if lags <= 2 * horizon + 1 {
      assert |Target(s, k, lags, horizon)| == 2 * horizon + 1 - lags;
    } else {
      assert |Lookback(s, k, lags)| == 2 * horizon + 1;
    }
  }

  /** The training windows can be stacked by numpy exactly when there is at most one window or
      `lags <= horizon + 1`; otherwise the first and the last window differ in length. */
  lemma {:induction false} TrainingWindowsUniform<T>(s: seq<T>, lags: nat, horizon: nat)
    ensures (forall k :: 0 <= k < TrainingCount(|s|, horizon) ==>
               |Lookback(s, k, lags)| == |Lookback(s, 0, lags)| &&
               |Target(s, k, lags, horizon)| == |Target(s, 0, lags, horizon)|)
        <==> Stackable(|s|, lags, horizon)
  {
    var c := TrainingCount(|s|, horizon);
    if lags <= horizon + 1 {
      forall k | 0 <= k < c
        ensures |Lookback(s, k, lags)| == |Lookback(s, 0, lags)| &&
                |Target(s, k, lags, horizon)| == |Target(s, 0, lags, horizon)|
      {
        WindowInside(s, k, lags, horizon);
        WindowInside(s, 0, lags, horizon);
      }
    } else if c > 1 {
      var k := c - 1;
      if lags <= 2 * horizon + 1 {
        assert |Target(s, k, lags, horizon)| == 2 * horizon + 1 - lags;
        assert |Target(s, 0, lags, horizon)| > 2 * horizon + 1 - lags;
      } else {
        assert |Lookback(s, k, lags)| == 2 * horizon + 1;
        assert |Lookback(s, 0, lags)| > 2 * horizon + 1;
      }
    }
  }

  /** With full training windows and `lags >= 2`, the last training target already holds the first of
      the final `horizon` points, which the evaluation window keeps as its target. */
  lemma TrainingSeesHoldout<T>(s: seq<T>, lags: nat, horizon: nat)
    requires TrainingCount(|s|, horizon) > 0 && 2 <= lags <= horizon + 1
    ensures var k := TrainingCount(|s|, horizon) - 1;
      Target(s, k, lags, horizon) == s[k + lags..|s| - horizon - 1 + lags] &&
      Target(s, k, lags, horizon)[horizon + 1 - lags] == s[|s| - horizon]
  {
    WindowInside(s, TrainingCount(|s|, horizon) - 1, lags, horizon);
  }

  /** The evaluation window (test mode, start `N - horizon - lags`) of a series with at least
      `lags + horizon` points: its target is the final `horizon` points and its lookback the `lags`
      points just before them. */
  lemma TestWindow<T>(s: seq<T>, lags: nat, horizon: nat)
    requires lags + horizon <= |s|
    ensures Lookback(s, |s| - horizon - lags, lags) == s[|s| - horizon - lags..|s| - horizon]
    ensures Target(s, |s| - horizon - lags, lags, horizon) == s[|s| - horizon..]
  {
    var start := |s| - horizon - lags;
    SliceInside(s, start, start + lags);
    SliceInside(s, start + lags, start + lags + horizon);
    assert start + lags == |s| - horizon && start + lags + horizon == |s|;
  }
}
