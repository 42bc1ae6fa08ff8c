/** The earlier revision sigpytch/forecaster.py, which cannot run as a whole: its window loop slides
    backward from the newest data, its `train` splits the series 80/20 before windowing, and it builds
    its network once. The windows are taken from the data `__prepare_data` is given, since the
    attribute the draft reads them from is never assigned. */
module DraftForecaster {
  import opened Wrappers
  import opened PySlices
  import opened Models
  import Periods

  /** The LSTM layer of the draft always has 64 units. */
  const DraftUnits: nat := 64

  /** The windows, in reading order, concatenated: `np.array(Y_prep).reshape((-1, 1))` read as one
      column. What it yields is stated by FlattenAppend, FlattenLength and FlattenAt. */
  function Flatten<T>(ys: seq<seq<T>>): (r: seq<T>)
  {
    if ys == [] then [] else ys[0] + Flatten(ys[1..])
  }

  /** Appending a window to the list appends its entries to the flattened targets. */
  lemma {:induction false} FlattenAppend<T>(ys: seq<seq<T>>, y: seq<T>)
    ensures Flatten(ys + [y]) == Flatten(ys) + y
  {
    if ys == [] {
      assert ys + [y] == [y];
      assert [y][1..] == [];
    } else {
      assert (ys + [y])[1..] == ys[1..] + [y];
      FlattenAppend(ys[1..], y);
    }
  }

  /** Windows of one width w flatten to |ys| * w entries, and entry k * w + j is ys[k][j]. */
  lemma {:induction false} FlattenAt<T>(ys: seq<seq<T>>, w: nat, k: nat, j: nat)
    requires forall i :: 0 <= i < |ys| ==> |ys[i]| == w
    requires k < |ys| && j < w
    ensures |Flatten(ys)| == |ys| * w
    ensures k * w + j < |Flatten(ys)| && Flatten(ys)[k * w + j] == ys[k][j]
  {
    FlattenLength(ys, w);
    var rest := Flatten(ys[1..]);
    assert Flatten(ys) == ys[0] + rest;
    if k > 0 {
      FlattenAt(ys[1..], w, k - 1, j);
      var i := (k - 1) * w + j;
      assert ys[1..][k - 1] == ys[k];
      assert rest[i] == ys[k][j];
      assert k * w + j == w + i;
    }
  }

  /** Windows of one width w flatten to |ys| * w entries. */
  lemma {:induction false} FlattenLength<T>(ys: seq<seq<T>>, w: nat)
    requires forall i :: 0 <= i < |ys| ==> |ys[i]| == w
    ensures |Flatten(ys)| == |ys| * w
  {
    if ys != [] {
      FlattenLength(ys[1..], w);
      assert |ys| * w == w + (|ys| - 1) * w;
    }
  }

  /** Where the k-th window of the backward loop starts. */
  function BackwardStart(n: nat, lags: nat, horizon: nat, k: nat): (s: int)
    ensures s + lags + horizon <= n
    ensures s >= 1 <==> k < n - (lags + horizon)
  {
    n - (lags + horizon) - k
  }

  /** The windows of the backward loop over `data`: window k starts at `BackwardStart(k)`, at index 1
      or later, and holds `lags` points followed at once by `horizon` points, all inside the data. */
  ghost predicate BackwardWindows<T>(data: seq<T>, lags: nat, horizon: nat, xs: seq<seq<T>>, ys: seq<seq<T>>)
  {
    |xs| == |ys| &&
    forall k :: 0 <= k < |xs| ==>
      var s := BackwardStart(|data|, lags, horizon, k);
      1 <= s && s + lags + horizon <= |data| &&
      xs[k] == data[s..s + lags] && ys[k] == data[s + lags..s + lags + horizon]
  }

  /** The loop of `__prepare_data` (lines 72-80), then the flattening of the targets (line 85). The
      start goes down from `N - (lags + horizon)` while it is above 0, so there are
      `max(0, N - lags - horizon)` windows, newest first, and the first point is in none of them. */
  method SlideBackward<T>(data: seq<T>, lags: nat, horizon: nat)
    returns (xs: seq<seq<T>>, ys: seq<seq<T>>, yFlat: seq<T>)
    ensures |xs| == (if |data| > lags + horizon then |data| - (lags + horizon) else 0)
    ensures BackwardWindows(data, lags, horizon, xs, ys)
    ensures xs != [] ==> ys[0] == data[|data| - horizon..]
    ensures yFlat == Flatten(ys) && |yFlat| == |ys| * horizon
  {
    xs, ys := BackwardLoop(data, lags, horizon);
    FlattenLength(ys, horizon);
    yFlat := Flatten(ys);
  }

  /** The window loop alone (lines 72-80). */
  method BackwardLoop<T>(data: seq<T>, lags: nat, horizon: nat) returns (xs: seq<seq<T>>, ys: seq<seq<T>>)
    ensures |xs| == (if |data| > lags + horizon then |data| - (lags + horizon) else 0)
    ensures BackwardWindows(data, lags, horizon, xs, ys)
    ensures xs != [] ==> ys[0] == data[|data| - horizon..]
  {
    var period := horizon + lags;
    var start := |data| - period;
    xs, ys := [], [];
    while start > 0
      invariant start <= |data| - period
      invariant |data| - period > 0 ==> start >= 0
      invariant |data| - period <= 0 ==> xs == []
      invariant |xs| == (|data| - period) - start
      invariant BackwardWindows(data, lags, horizon, xs, ys)
      decreases start
    {
      xs := xs + [data[start..start + lags]];
      ys := ys + [data[start + lags..start + period]];
      start := start - 1;
    }
  }

  /** `test_len = int(len(series) * 0.2)`, read as a fifth of the length rounded down. */
  function TestLength(n: nat): (t: nat)
    ensures 5 * t <= n < 5 * t + 5
  {
    n / 5
  }

  /** `train` lines 92-94: `series[:-test_len]` and `series[-test_len:]`. The two parts always make up
      the series; the test part has test_len points when test_len > 0, and with fewer than five points
      (test_len == 0, so both slices read `-0`) the training part is empty and the test part is all. */
  function Split<T>(series: seq<T>): (r: (seq<T>, seq<T>))
    ensures r.0 + r.1 == series
    ensures TestLength(|series|) > 0 ==> |r.1| == TestLength(|series|) && |r.0| == |series| - TestLength(|series|)
    ensures TestLength(|series|) == 0 <==> |series| < 5
    ensures |series| < 5 ==> r.0 == [] && r.1 == series
  {
    var t := TestLength(|series|);
    SliceSplit(series, t);
    SliceTail(series, t);
    (Slice(series, 0, -(t as int)), Slice(series, -(t as int), |series|))
  }

  class DraftLSTMForecaster {
    const series: seq<real>
    var lags: nat
    var forecastLen: nat
    var model: Option<Network>

    /** Stands in for `__init__`, which cannot finish (its `forecast_len` setter assigns to itself):
        the values it means to set. */
    constructor (series: seq<real>)
      ensures this.series == series && model == None
      ensures lags == Periods.TradingDaysPerMonth && forecastLen == Periods.TradingDaysPerYear
    {
      this.series := series;
      model := None;
      lags := Periods.TradingDaysPerMonth;
      forecastLen := Periods.TradingDaysPerYear;
    }

    /** `__setup_model(Y)`: 64 LSTM units over windows of `lags` steps and a dense layer as wide as
        `Y.shape[1]`. Y is the targets after `reshape((-1, 1))`, so that width is always 1, and the
        model takes no Y. */
    method SetupModel()
      modifies this`model
      ensures model == Some(Network(DraftUnits, lags, 1))
    {
      model := Some(Network(DraftUnits, lags, 1));
    }

    /** `train(lags, epochs)` as far as the draft goes: set `lags`, split, window the training part and
        build the network only if there is none (line 97). It returns what it would fit on: the
        lookbacks, the targets, and the targets flattened. */
    method Train(newLags: nat) returns (xTrain: seq<seq<real>>, yWindows: seq<seq<real>>, yTrain: seq<real>)
      modifies this
      ensures lags == newLags && forecastLen == old(forecastLen)
      ensures model == if old(model).None? then Some(Network(DraftUnits, newLags, 1)) else old(model)
      ensures var trainSet := Split(series).0;
        BackwardWindows(trainSet, newLags, forecastLen, xTrain, yWindows) &&
        |xTrain| == (if |trainSet| > newLags + forecastLen then |trainSet| - (newLags + forecastLen) else 0)
      ensures yTrain == Flatten(yWindows) && |yTrain| == |yWindows| * forecastLen
    {
      lags := newLags;
      var (trainSet, testSet) := Split(series);
      xTrain, yWindows, yTrain := SlideBackward(trainSet, lags, forecastLen);
      if model.None? {
        SetupModel();
      }
    }
  }
}
