/** `LSTMForecaster` of sigpytch/forecasters.py: a series of dated prices, the window sizes, a min-max
    scaler that is unfit until the first `train`, and a network that is built once. The scaler's
    arithmetic and the network are collaborators the class is given: `scale` and `unscale` map one
    value with a scaler fitted on `data`, and `predict` runs a network on one lookback window. */
module Forecasters {
  import opened Wrappers
  import opened PySlices
  import opened BusinessDays
  import opened Windowing
  import opened Models
  import Periods

  /** One row of the input series: a day number and the price on that day. */
  datatype Observation = Observation(day: int, value: real)

  /** The `MinMaxScaler`: unfit, or fitted on the values it was given. */
  datatype Scaler = Unfit | FittedOn(data: seq<real>)

  /** The exceptions the Python code runs into. */
  datatype Error =
    | NoSamples          // sklearn refuses to fit or transform an array with no rows
    | NotFitted          // transform on a scaler that was never fitted
    | NoModel            // predict while `self.model` is still None
    | RaggedWindows      // numpy cannot stack windows of different lengths
    | NoTrainingWindows  // fit on an empty training set
    | ShapeMismatch      // fit on a window shorter than lags or forecast_len
    | LengthMismatch     // a pandas slice assignment of the wrong length

  /** `X_prep` and `Y_prep`: the lookbacks and targets of __prepare_data. */
  datatype Windows = Windows(inputs: seq<seq<real>>, targets: seq<seq<real>>)

  /** A row of the table `train` returns: the series row and its Prediction cell. */
  datatype PredictionRow = PredictionRow(day: int, value: real, prediction: Option<real>)

  /** A row of the table `forecast` returns: a date of the extended index and its Forecast cell. */
  datatype ForecastRow = ForecastRow(day: int, forecast: Option<real>)

  function Values(series: seq<Observation>): (r: seq<real>)
    ensures |r| == |series|
    ensures forall i :: 0 <= i < |series| ==> r[i] == series[i].value
  {
    seq(|series|, i requires 0 <= i < |series| => series[i].value)
  }

  /** Every value of xs mapped by f with a scaler fitted on data. */
  function Apply(f: (seq<real>, real) -> real, data: seq<real>, xs: seq<real>): (r: seq<real>)
    ensures |r| == |xs|
    ensures forall i :: 0 <= i < |xs| ==> r[i] == f(data, xs[i])
  {
    seq(|xs|, i requires 0 <= i < |xs| => f(data, xs[i]))
  }

  /** `scaler.transform(xs)`: sklearn first checks that the scaler is fitted, then that there is at
      least one row; it never refits. */
  function Transform(scaler: Scaler, f: (seq<real>, real) -> real, xs: seq<real>): (r: Result<seq<real>, Error>)
    ensures scaler.Unfit? <==> r == Err(NotFitted)
    ensures scaler.FittedOn? && xs == [] <==> r == Err(NoSamples)
    ensures r.Ok? <==> scaler.FittedOn? && xs != []
    ensures r.Ok? ==> r.value == Apply(f, scaler.data, xs)
  {
    if scaler.Unfit? then Err(NotFitted)
    else if xs == [] then Err(NoSamples)
    else Ok(Apply(f, scaler.data, xs))
  }

  /** Every cell null. */
  function NullColumn(n: nat): (r: seq<Option<real>>)
    ensures |r| == n && forall i :: 0 <= i < n ==> r[i] == None
  {
    seq(n, _ => None)
  }

  function Present(xs: seq<real>): (r: seq<Option<real>>)
    ensures |r| == |xs| && forall i :: 0 <= i < |xs| ==> r[i] == Some(xs[i])
  {
    seq(|xs|, i requires 0 <= i < |xs| => Some(xs[i]))
  }

  /** The table `train` returns: the series with a Prediction column made by `col[-k:] = vals` on
      an all-null column. None when pandas refuses the assignment for its length. */
  function PredictionTable(series: seq<Observation>, k: nat, vals: seq<real>): (r: Option<seq<PredictionRow>>)
    ensures r.Some? <==> |vals| == TailCount(|series|, k)
    ensures r.Some? ==> |r.value| == |series|
    ensures r.Some? ==> forall i :: 0 <= i < |series| ==>
      r.value[i].day == series[i].day && r.value[i].value == series[i].value &&
      r.value[i].prediction == if i < |series| - |vals| then None else Some(vals[i - (|series| - |vals|)])
  {
    var column := AssignTail(NullColumn(|series|), k, Present(vals));
    if column.None? then None
    else Some(seq(|series|, i requires 0 <= i < |series| =>
      PredictionRow(series[i].day, series[i].value, column.value[i])))
  }

  /** The table `forecast` returns: every date of the index with a Forecast column made by
      `col[-k:] = vals` on an all-null column. None when pandas refuses the assignment for its length. */
  function ForecastTable(dates: seq<int>, k: nat, vals: seq<real>): (r: Option<seq<ForecastRow>>)
    ensures r.Some? <==> |vals| == TailCount(|dates|, k)
    ensures r.Some? ==> |r.value| == |dates|
    ensures r.Some? ==> forall i :: 0 <= i < |dates| ==>
      r.value[i].day == dates[i] &&
      r.value[i].forecast == if i < |dates| - |vals| then None else Some(vals[i - (|dates| - |vals|)])
  {
    var column := AssignTail(NullColumn(|dates|), k, Present(vals));
    if column.None? then None
    else Some(seq(|dates|, i requires 0 <= i < |dates| => ForecastRow(dates[i], column.value[i])))
  }

  class LSTMForecaster {
    const series: seq<Observation>
    const scale: (seq<real>, real) -> real
    const unscale: (seq<real>, real) -> real
    const predict: (Network, seq<real>) -> seq<real>
    var lags: nat
    var forecastLen: nat
    var scaler: Scaler
    var model: Option<Network>

    /** A fitted scaler was fitted on the whole (non-empty) series. */
    ghost predicate Valid()
      reads this
    {
      scaler.FittedOn? ==> series != [] && scaler.data == Values(series)
    }

    /** `__init__`: both window sizes a trading year, an unfit scaler and no network. */
    constructor (series: seq<Observation>, scale: (seq<real>, real) -> real,
                 unscale: (seq<real>, real) -> real, predict: (Network, seq<real>) -> seq<real>)
      ensures Valid()
      ensures this.series == series && this.scale == scale && this.unscale == unscale && this.predict == predict
      ensures lags == Periods.TradingDaysPerYear && forecastLen == Periods.TradingDaysPerYear
      ensures scaler == Unfit && model == None
    {
      this.series := series;
      this.scale := scale;
      this.unscale := unscale;
      this.predict := predict;
      lags := Periods.TradingDaysPerYear;
      forecastLen := Periods.TradingDaysPerYear;
      scaler := Unfit;
      model := None;
    }

    /** The series as `fit_transform` leaves it: every value scaled against the whole series. */
    ghost function Scaled(): (r: seq<real>)
      ensures |r| == |series|
    {
      Apply(scale, Values(series), Values(series))
    }

    /** The lookback of the evaluation window: the `lags` scaled points before the last `forecast_len`. */
    ghost function EvaluationInput(): (r: seq<real>)
      reads this
      requires lags + forecastLen <= |series|
      ensures |r| == lags
    {
      Scaled()[|series| - forecastLen - lags..|series| - forecastLen]
    }

    /** What `forecast` hands the network: `series[-lags:]` scaled without refitting. */
    ghost function ForecastInput(): (r: seq<real>)
      reads this
      requires scaler.FittedOn?
    {
      Apply(scale, scaler.data, Slice(Values(series), -(lags as int), |series|))
    }

    /** The training windows over the scaled series: window k starts at k. */
    ghost predicate TrainingWindows(w: Windows)
      reads this
    {
      var c := TrainingCount(|series|, forecastLen);
      |w.inputs| == |w.targets| == (if c > 0 then c else 0) &&
      forall k :: 0 <= k < |w.inputs| ==>
        w.inputs[k] == Lookback(Scaled(), k, lags) && w.targets[k] == Target(Scaled(), k, lags, forecastLen)
    }

    /** `__all_dates`: `pd.bdate_range(first, last + BDay(forecast_len))`. With forecast_len >= 1 and
        ordered end dates, it lists the business days up to the last date and then exactly
        forecast_len more, all after it. */
    function AllDates(): (r: seq<int>)
      reads this
      requires series != []
      ensures forall i, j :: 0 <= i < j < |r| ==> r[i] < r[j]
      ensures forall d :: d in r <==>
        series[0].day <= d <= AddBusinessDays(series[|series| - 1].day, forecastLen) && IsBusinessDay(d)
      ensures forecastLen >= 1 && series[0].day <= series[|series| - 1].day ==>
        |r| >= forecastLen &&
        r[..|r| - forecastLen] == BusinessDaysBetween(series[0].day, series[|series| - 1].day) &&
        (forall i :: 0 <= i < |r| - forecastLen ==> r[i] <= series[|series| - 1].day) &&
        (forall i :: |r| - forecastLen <= i < |r| ==> series[|series| - 1].day < r[i])
    {
      var first, last := series[0].day, series[|series| - 1].day;
      if forecastLen >= 1 && first <= last then
        ExtendedRange(first, last, forecastLen);
        BusinessDaysBetween(first, AddBusinessDays(last, forecastLen))
      else
        BusinessDaysBetween(first, AddBusinessDays(last, forecastLen))
    }

    /** `__setup_model`: an LSTM of `lags` units over windows of `lags` steps and a dense layer of
        `forecast_len` outputs. */
    method SetupModel()
      modifies this`model
      ensures model == Some(Network(lags, lags, forecastLen))
    {
      model := Some(Network(lags, lags, forecastLen));
    }

    /** `__prepare_data(series, test)`. Training mode fits the scaler on the whole series and builds
        `TrainingCount` windows from start 0; test mode only transforms and builds the one window that
        starts at `N - forecast_len - lags`. */
    method PrepareData(test: bool) returns (r: Result<Windows, Error>)
      requires Valid()
      modifies this`scaler
      ensures Valid()
      ensures test ==> scaler == old(scaler)
      ensures test && scaler.Unfit? ==> r == Err(NotFitted)
      ensures test && scaler.FittedOn? ==>
        var start := |series| - forecastLen - lags;
        r == Ok(Windows([Lookback(Scaled(), start, lags)], [Target(Scaled(), start, lags, forecastLen)]))
      ensures !test ==> scaler == if series == [] then old(scaler) else FittedOn(Values(series))
      ensures !test && series == [] ==> r == Err(NoSamples)
      ensures !test && series != [] ==> (r.Ok? <==> Stackable(|series|, lags, forecastLen))
      ensures !test && series != [] && r.Err? ==> r.error == RaggedWindows
      ensures !test && r.Ok? ==> TrainingWindows(r.value)
    {
      if test {
        r := PrepareTest();
      } else {
        r := PrepareTraining();
      }
    }

    /** The test branch of __prepare_data (lines 66-69, then the loop once). */
    method PrepareTest() returns (r: Result<Windows, Error>)
      requires Valid()
      ensures scaler.Unfit? ==> r == Err(NotFitted)
      ensures scaler.FittedOn? ==>
        var start := |series| - forecastLen - lags;
        r == Ok(Windows([Lookback(Scaled(), start, lags)], [Target(Scaled(), start, lags, forecastLen)]))
    {
      var t := Transform(scaler, scale, Values(series));
      if t.Err? {
        return Err(t.error);
      }
      var start := |series| - forecastLen - lags;
      // one window, which numpy always stacks
      var xs, ys := SlideForward(t.value, start, 1, lags, forecastLen);
      assert t.value == Scaled();
      assert xs == [Lookback(Scaled(), start + 0, lags)] && ys == [Target(Scaled(), start + 0, lags, forecastLen)];
      r := Ok(Windows(xs, ys));
    }

    /** The training branch of __prepare_data (lines 70-75, then the loop). */
    method PrepareTraining() returns (r: Result<Windows, Error>)
      requires Valid()
      modifies this`scaler
      ensures Valid()
      ensures scaler == if series == [] then old(scaler) else FittedOn(Values(series))
      ensures series == [] ==> r == Err(NoSamples)
      ensures series != [] ==> (r.Ok? <==> Stackable(|series|, lags, forecastLen))
      ensures series != [] && r.Err? ==> r.error == RaggedWindows
      ensures r.Ok? ==> TrainingWindows(r.value)
    {
      var values := Values(series);
      if values == [] {
        return Err(NoSamples);
      }
      scaler := FittedOn(values);
      var t := Transform(scaler, scale, values);
      var columns := Slice([t.value], 0, |values| - forecastLen);
      ColumnSlice(t.value, forecastLen);
      var scaled := if columns == [] then [] else columns[0];
      var count := (|values| - forecastLen) - forecastLen;
      var xs, ys := SlideForward(scaled, 0, count, lags, forecastLen);
      if |values| > forecastLen {
        assert scaled == Scaled();
        TrainingWindowsUniform(scaled, lags, forecastLen);
        UniformWindows(scaled, count, lags, forecastLen, xs, ys);
      }
      if !Uniform(xs, ys) {
        return Err(RaggedWindows);
      }
      r := Ok(Windows(xs, ys));
    }

    /** `train(lags, epochs)`: sets `lags`, prepares the training windows (fitting the scaler), builds
        the network only when there is none, fits it, then predicts the evaluation window and returns
        the series with a Prediction column that holds the rescaled predictions on its last rows. A
        network that already exists is kept, whatever `lags` it was built for. */
    method Train(newLags: nat) returns (r: Result<seq<PredictionRow>, Error>)
      requires Valid()
      modifies this
      ensures Valid()
      ensures lags == newLags && forecastLen == old(forecastLen)
      ensures scaler == if series == [] then old(scaler) else FittedOn(Values(series))
      ensures model == if series != [] && Stackable(|series|, newLags, forecastLen) && old(model).None?
                       then Some(Network(newLags, newLags, forecastLen)) else old(model)
      ensures series == [] ==> r == Err(NoSamples)
      ensures series != [] && !Stackable(|series|, newLags, forecastLen) ==> r == Err(RaggedWindows)
      ensures series != [] && TrainingCount(|series|, forecastLen) <= 0 ==> r == Err(NoTrainingWindows)
      ensures series != [] && Stackable(|series|, newLags, forecastLen) && !FullLength(|series|, newLags, forecastLen)
              ==> r == Err(ShapeMismatch)
      ensures r.Ok? <==>
        TrainingCount(|series|, forecastLen) > 0 && FullLength(|series|, newLags, forecastLen) &&
        model.Some? && |predict(model.value, EvaluationInput())| == TailCount(|series|, forecastLen)
      ensures TrainingCount(|series|, forecastLen) > 0 && FullLength(|series|, newLags, forecastLen) && !r.Ok?
              ==> r == Err(LengthMismatch)
      ensures r.Ok? ==>
        lags + forecastLen <= |series| && model.Some? &&
        Some(r.value) == PredictionTable(series, forecastLen, Apply(unscale, Values(series), predict(model.value, EvaluationInput())))
      ensures r.Ok? && forecastLen >= 1 ==>
        |r.value| == |series| &&
        forall i :: 0 <= i < |series| ==> (r.value[i].prediction.Some? <==> |series| - forecastLen <= i)
    {
      lags := newLags;
      var training := PrepareData(false);
      if training.Err? {
        return Err(training.error);
      }
      if model.None? {
        SetupModel();
      }
      r := FitAndEvaluate(training.value);
    }

    /** Lines 99-110 of `train`: fit the network on the training windows, predict the evaluation
        window and lay the rescaled prediction onto the last rows of the series. Only the sizes of the
        fit are modelled, so nothing here changes state. */
    method FitAndEvaluate(windows: Windows) returns (r: Result<seq<PredictionRow>, Error>)
      requires Valid() && scaler.FittedOn? && model.Some?
      requires TrainingWindows(windows)
      ensures TrainingCount(|series|, forecastLen) <= 0 ==> r == Err(NoTrainingWindows)
      ensures TrainingCount(|series|, forecastLen) > 0 && !FullLength(|series|, lags, forecastLen) ==> r == Err(ShapeMismatch)
      ensures r.Ok? <==>
        TrainingCount(|series|, forecastLen) > 0 && FullLength(|series|, lags, forecastLen) &&
        |predict(model.value, EvaluationInput())| == TailCount(|series|, forecastLen)
      ensures TrainingCount(|series|, forecastLen) > 0 && FullLength(|series|, lags, forecastLen) && !r.Ok?
              ==> r == Err(LengthMismatch)
      ensures r.Ok? ==>
        lags + forecastLen <= |series| &&
        Some(r.value) == PredictionTable(series, forecastLen, Apply(unscale, Values(series), predict(model.value, EvaluationInput())))
    {
      // model.fit(X_train, Y_train): nothing to fit on, or windows the network's shape does not take
      if |windows.inputs| == 0 {
        return Err(NoTrainingWindows);
      }
      TrainingWindowsFull(Scaled(), lags, forecastLen);
      FullWindows(Scaled(), TrainingCount(|series|, forecastLen), lags, forecastLen, windows.inputs, windows.targets);
      if !Full(windows.inputs, windows.targets, lags, forecastLen) {
        return Err(ShapeMismatch);
      }
      var test := PrepareTest();
      TestWindow(Scaled(), lags, forecastLen);
      assert test.value.inputs[0] == EvaluationInput();
      var pred := predict(model.value, test.value.inputs[0]);
      var unscaled := Apply(unscale, Values(series), pred);
      var table := PredictionTable(series, forecastLen, unscaled);
      if table.None? {
        return Err(LengthMismatch);
      }
      r := Ok(table.value);
    }

    /** `forecast()`: transforms `series[-lags:]` with the fitted scaler (never refitting), predicts,
        rescales, and returns the extended date index with a Forecast column that holds the rescaled
        predictions on its last rows. It changes no field. */
    method Forecast() returns (r: Result<seq<ForecastRow>, Error>)
      requires Valid()
      ensures scaler.Unfit? ==> r == Err(NotFitted)
      ensures scaler.FittedOn? && model.None? ==> r == Err(NoModel)
      ensures r.Ok? <==>
        scaler.FittedOn? && model.Some? &&
        |predict(model.value, ForecastInput())| == TailCount(|AllDates()|, forecastLen)
      ensures r.Ok? ==>
        series != [] && scaler.FittedOn? && model.Some? &&
        Some(r.value) == ForecastTable(AllDates(), forecastLen, Apply(unscale, Values(series), predict(model.value, ForecastInput())))
      ensures r.Ok? && forecastLen >= 1 && series[0].day <= series[|series| - 1].day ==>
        |r.value| >= forecastLen &&
        forall i :: 0 <= i < |r.value| ==>
          (r.value[i].forecast.Some? <==> series[|series| - 1].day < r.value[i].day)
    {
      var values := Values(series);
      var window := Slice(values, -(lags as int), |values|);
      var scaled := Transform(scaler, scale, window);
      if scaled.Err? {
        return Err(scaled.error);
      }
      if model.None? {
        return Err(NoModel);
      }
      var fcst := predict(model.value, scaled.value);
      var unscaled := Apply(unscale, scaler.data, fcst);
      var dates := AllDates();
      var table := ForecastTable(dates, forecastLen, unscaled);
      if table.None? {
        return Err(LengthMismatch);
      }
      r := Ok(table.value);
    }
  }

  /** A fresh forecaster cannot forecast: its scaler is not fitted. After `train(21)` and then
      `train(10)`, `lags` is 10 but the network is still the one built for 21 lags and a horizon of a
      trading year, since a network is only built when there is none. */
  method RetrainKeepsNetwork(series: seq<Observation>, scale: (seq<real>, real) -> real,
                             unscale: (seq<real>, real) -> real, predict: (Network, seq<real>) -> seq<real>)
    returns (early: Result<seq<ForecastRow>, Error>, network: Option<Network>, lagsAfter: nat)
    ensures early == Err(NotFitted)
    ensures network == if series == [] then None
                       else Some(Network(Periods.TradingDaysPerMonth, Periods.TradingDaysPerMonth, Periods.TradingDaysPerYear))
    ensures lagsAfter == 10
  {
    var f := new LSTMForecaster(series, scale, unscale, predict);
    early := f.Forecast();
    var first := f.Train(Periods.TradingDaysPerMonth);
    var second := f.Train(10);
    network, lagsAfter := f.model, f.lags;
  }
}
