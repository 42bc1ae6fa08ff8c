# SIGPytch LSTM forecaster: a Dafny model

This project models the index bookkeeping around the LSTM price forecaster of SIGPytch. It does not model the neural network or the scaler arithmetic; it models what the repository's own code does around them:

- `LSTMForecaster` (sigpytch/forecasters.py) is the class `Forecasters.LSTMForecaster`. Its fields are the series of `(day, price)` observations, `lags`, `forecastLen` (`forecast_len`), the scaler state (`Unfit` or `FittedOn(values)`) and an optional `Network` that records the sizes it was built with.
- Its preparation of sliding windows is the counting loop `Windowing.SlideForward`. The class then turns the windows into training data and an evaluation window, trains once, and lays the rescaled predictions onto the Prediction and Forecast columns.
- The `forecast` index `pd.bdate_range(first, last + BDay(forecast_len))` is `LSTMForecaster.AllDates`, built on `BusinessDays`. Dates are integer day numbers that count from a Monday: `d % 7` is the weekday and 5, 6 are the weekend. There is no holiday calendar, as in the source.
- The earlier draft sigpytch/forecaster.py is the module `DraftForecaster`: its backward window loop, the flattening of its targets, its 80/20 train/test split, and its build-once rule for the network.

Python's slicing is modelled exactly by `PySlices.Slice`: negative bounds count from the end, bounds are clamped, and `-0` is `0`. So a window that runs past the end of the series comes out short, as it does in numpy, and the model shows when that happens. Null cells are `Option`. The exceptions the code runs into are the cases of `Forecasters.Error`, reported in the order the source reaches them.

The network's `predict` and the scaler's `transform`/`inverse_transform` are uninterpreted collaborators. They are function-valued constants of the class: `scale(data, v)` and `unscale(data, v)` map one value with a scaler fitted on `data`, and `predict(network, window)` returns the network's output for one window.

## What the code does that a reader might not expect

- **Window count.** Training builds `N - 2·forecast_len` windows, starting at 0, 1, 2, …; the count does not depend on `lags` (forecasters.py:72-75). It does not keep the last `forecast_len` points out of the training windows.
- **Column slice.** Line 73 slices the columns of the `N×1` array, not its rows. So no points are reserved: with `lags >= 2`, the last training target already contains the first of the final `forecast_len` points, and the evaluation window predicts those same points (`Windowing.TrainingSeesHoldout`).
- **Window lengths.** The training windows lie wholly inside the series only when `lags <= forecast_len + 1` (`Windowing.TrainingWindowsFull`).
- **No rebuild.** A later `train` with different `lags` does not rebuild the network. The network built at the first `train` is kept (forecasters.py:97; `Forecasters.RetrainKeepsNetwork`).
- **Spacing.** `forecast` does not check that the series is business-day spaced or sorted. The claim that Forecast is non-null exactly on the dates after the last observation is proved for `forecast_len >= 1` and `first <= last`, on any weekday.

## Model

| member | source | states |
|---|---|---|
| `PySlices.Bound` | sigpytch/forecasters.py:80-81 | a slice bound in 0..len is taken as it is, a negative bound of at most len counts back from the end, and a bound beyond either end is clamped to that end |
| `PySlices.Slice` | sigpytch/forecasters.py:73 | `s[lo:hi]` is the contiguous run of s from the placed lower bound to the placed upper bound, as long as their distance, and empty when they cross; it is used for every slice at forecasters.py:73, 80-81, 109, 113, 124 and forecaster.py:93-94 |
| `PySlices.SliceInside` | sigpytch/forecasters.py:80-81 | a slice whose bounds lie inside the sequence is the plain subsequence |
| `PySlices.SliceTail` | sigpytch/forecasters.py:113 | `s[-k:]` is the last k elements for 0 < k <= len, and the whole sequence for k == 0 or k > len |
| `PySlices.SliceSplit` | sigpytch/forecaster.py:93-94 | `s[:-t] + s[-t:] == s` for every t >= 0; `s[:-t]` drops the last t elements, or is empty when t == 0 or t > len |
| `PySlices.TailCount` | sigpytch/forecasters.py:109 | `col[-k:]` covers k positions when 0 < k <= len, and all of them otherwise |
| `PySlices.AssignTail` | sigpytch/forecasters.py:109 | `col[-k:] = vals` succeeds exactly when vals is as long as the slice; it then keeps the column's length, leaves the front unchanged and puts vals, in order, on the last positions |
| `BusinessDays.IsBusinessDay` | sigpytch/forecasters.py:90-91 | the business days of `BDay` and `bdate_range` are the weekdays: a day is one exactly when it is neither a Saturday nor a Sunday |
| `BusinessDays.NextBusinessDay` | sigpytch/forecasters.py:90 | the result is a business day at most three days after d, and no business day lies between |
| `BusinessDays.AddBusinessDays` | sigpytch/forecasters.py:90 | `d + BDay(n)` is a business day not before d; it is d itself exactly when n == 0, for a business day d or for n > 0; with n == 0 it is the first business day on or after d, so a weekend day rolls forward to `NextBusinessDay(d)` |
| `BusinessDays.BusinessDaysBetween` | sigpytch/forecasters.py:91 | `bdate_range(start, end)` is strictly ascending and contains exactly the business days from start to end inclusive |
| `BusinessDays.BetweenSplit` | sigpytch/forecasters.py:91 | a business-day range cut after m is the range up to m followed by the range after m |
| `BusinessDays.BusinessDaysAfter` | sigpytch/forecasters.py:90-91 | for n >= 1, exactly n business days lie after d up to and including `d + BDay(n)`, whatever weekday d is |
| `BusinessDays.ExtendedRange` | sigpytch/forecasters.py:88-91 | `bdate_range(first, last + BDay(n))` for n >= 1 is the business days up to last, then exactly n dates, all after last |
| `Windowing.Lookback` | sigpytch/forecasters.py:80 | from a start at or after 0, the lookback holds the points from start on, lags of them, or as many as the series has left, or none past its end |
| `Windowing.Target` | sigpytch/forecasters.py:81 | the target holds the points from `start + lags` on, forecast_len of them, or as many as the series has left, or none past its end |
| `Windowing.TrainingCount` | sigpytch/forecasters.py:72-75 | `n_input` is N less 2·forecast_len, with no dependence on lags, and is at least 1 exactly when N > 2·forecast_len |
| `Windowing.SlideForward` | sigpytch/forecasters.py:77-83 | the loop builds max(0, count) windows, and window k is the lookback and target starting at `start + k` |
| `Windowing.ColumnSlice` | sigpytch/forecasters.py:72-73 | slicing the columns of the N×1 array keeps the whole series when N > forecast_len, and leaves no column otherwise |
| `Windowing.WindowInside` | sigpytch/forecasters.py:80-81 | a window inside the series has lookback `s[start..start+L)`, target `s[start+L..start+L+H)`, and target right after lookback |
| `Windowing.TrainingWindowsFull` | sigpytch/forecasters.py:72-82 | every training window has full length if and only if there are no training windows or lags <= forecast_len + 1 |
| `Windowing.TrainingWindowsUniform` | sigpytch/forecasters.py:77-84 | numpy can stack the training windows if and only if there is at most one window or lags <= forecast_len + 1 |
| `Windowing.TrainingSeesHoldout` | sigpytch/forecasters.py:72-82 | with full windows and lags >= 2, the last training target contains the first of the final forecast_len points |
| `Windowing.TestWindow` | sigpytch/forecasters.py:66-69 | when N >= lags + forecast_len, the one test window has the final forecast_len points as target and the lags points before them as lookback |
| `Forecasters.Transform` | sigpytch/forecasters.py:67 | transform fails with NotFitted on an unfit scaler and with NoSamples on no rows; otherwise it maps each value with the fitted data and never refits |
| `Forecasters.PredictionTable` | sigpytch/forecasters.py:105-109 | the table exists exactly when the predictions fill `[-forecast_len:]`; it has the series' rows, and Prediction is null before the last rows and holds the predictions, in order, on them |
| `Forecasters.ForecastTable` | sigpytch/forecasters.py:120-124 | the table exists exactly when the predictions fill `[-forecast_len:]`; it has one row per date, and Forecast is null before the last rows and holds the predictions, in order, on them |
| `Forecasters.LSTMForecaster.constructor` | sigpytch/forecasters.py:44-51 | a new forecaster has lags and forecast_len 252, an unfit scaler and no network |
| `Forecasters.LSTMForecaster.AllDates` | sigpytch/forecasters.py:88-91 | the extended index is ascending and holds exactly the business days from the first date to `last + BDay(forecast_len)`; for forecast_len >= 1 its last forecast_len dates are exactly those after the last observation |
| `Forecasters.LSTMForecaster.SetupModel` | sigpytch/forecasters.py:53-57 | the network gets lags units, input width lags and output width forecast_len |
| `Forecasters.LSTMForecaster.PrepareData` | sigpytch/forecasters.py:59-86 | training mode fits the scaler on the whole series, fails only on no samples or ragged windows, and yields window k at start k; test mode never refits, fails when unfit, and yields the single window at `N - forecast_len - lags` |
| `Forecasters.LSTMForecaster.PrepareTest` | sigpytch/forecasters.py:66-69 | test preparation only transforms and yields the window at `N - forecast_len - lags`, or NotFitted |
| `Forecasters.LSTMForecaster.PrepareTraining` | sigpytch/forecasters.py:70-86 | training preparation fits the scaler on the whole series and yields the training windows exactly when they can be stacked |
| `Forecasters.LSTMForecaster.Train` | sigpytch/forecasters.py:93-110 | sets lags; the scaler is fitted on the whole series; the network is built only if none exists and is otherwise kept; each error case is stated; on success the Prediction column is null on the first N - forecast_len rows and holds the rescaled evaluation predictions on the rest |
| `Forecasters.LSTMForecaster.FitAndEvaluate` | sigpytch/forecasters.py:99-110 | fitting fails on no training windows or short windows; it succeeds exactly when the prediction of the evaluation window `scaled[N-F-L..N-F)` fills `[-forecast_len:]`, and yields that table |
| `Forecasters.LSTMForecaster.Forecast` | sigpytch/forecasters.py:112-125 | changes no field; fails with NotFitted before any train and with NoModel without a network; otherwise predicts on `series[-lags:]`, scaled without refitting, over the extended index, non-null exactly after the last date |
| `Forecasters.RetrainKeepsNetwork` | sigpytch/forecasters.py:94-97 | forecasting before train fails with NotFitted; after train(21) then train(10), lags is 10 but the network is still the one built for 21 lags |
| `DraftForecaster.FlattenAppend` | sigpytch/forecaster.py:79-85 | appending a window to the targets appends its entries, in order, to the end of the flattened column |
| `DraftForecaster.BackwardStart` | sigpytch/forecaster.py:73-80 | the k-th window of the backward loop always ends inside the data, and starts at index 1 or later exactly when k < N - (lags + forecast_len) |
| `DraftForecaster.BackwardLoop` | sigpytch/forecaster.py:72-80 | the `while idx_start > 0` loop yields max(0, N - lags - forecast_len) windows, each inside the data at `BackwardStart(k)`, the first with the final points as its target |
| `DraftForecaster.FlattenLength` | sigpytch/forecaster.py:84-85 | flattening targets of width w gives count·w entries |
| `DraftForecaster.FlattenAt` | sigpytch/forecaster.py:84-85 | entry k·w + j of the flattened targets is entry j of window k, so the windows are concatenated in emission order |
| `DraftForecaster.SlideBackward` | sigpytch/forecaster.py:72-85 | the backward loop yields max(0, N - lags - forecast_len) windows from start `N - (lags + forecast_len)` downward; every start is at least 1, so the first point is in no window; each window lies inside the data with target right after lookback; the first window's target is the final points; the flattened targets number count·forecast_len |
| `DraftForecaster.TestLength` | sigpytch/forecaster.py:92 | `test_len` is the largest t with 5·t <= N, a fifth of the length rounded down |
| `DraftForecaster.Split` | sigpytch/forecaster.py:91-94 | the training and test parts always concatenate to the series; the test part has N div 5 points when that is positive; with fewer than 5 points the training part is empty and the test part is everything |
| `DraftForecaster.DraftLSTMForecaster.constructor` | sigpytch/forecaster.py:42-49 | the values the draft's constructor means to set: lags 21, forecast_len 252, no network |
| `DraftForecaster.DraftLSTMForecaster.SetupModel` | sigpytch/forecaster.py:59-63 | the draft's network has 64 units, input width lags and output width 1, the column count `Y.shape[1]` of targets reshaped to one column, so Y itself is not needed |
| `DraftForecaster.DraftLSTMForecaster.Train` | sigpytch/forecaster.py:88-97 | sets lags; builds the network only if none exists and otherwise keeps it; windows the training part of the 80/20 split backward |

## Left out

- The Keras network's construction, `compile`, `fit`, `predict` and `summary` (forecasters.py:53-57, 98-99, 102) are foreign library calls. Only the sizes are kept and the build-once rule; `predict` is an uninterpreted function of the class, and training changes no weights in the model. `epochs` is therefore not a parameter.
- `MinMaxScaler`'s floating-point arithmetic and its feature range (-1, 1) are left to the uninterpreted `scale` and `unscale`. The model keeps only which data the scaler is fitted on and which calls fit it.
- Forecasters.LSTMForecaster.FitAndEvaluate: `ShapeMismatch` stands for Keras rejecting a single window that is shorter than the network's input or output. Whether a given Keras version broadcasts or accepts such windows is not modelled, and neither is what it does when a later `train` feeds windows of a new `lags` to a network built for an earlier one.
- `RaggedWindows` is how numpy (1.24 and later) refuses to stack windows of different lengths. Older numpy builds an object array and fails later, inside Keras.
- Forecasters.LSTMForecaster.Train: sklearn and Keras errors for zero-width arrays (`forecast_len == 0` or `lags == 0`) are not modelled. Negative `lags` or `forecast_len` are not modelled: both fields are natural numbers.
- The chained assignments `df['Prediction'][-k:] = …` and `df['Forecast'][-k:] = …` (forecasters.py:109, 124) are taken to write into the frame, as pandas did before copy-on-write.
- The reindexing of the series' values onto the extended index (forecasters.py:120) is left out. Forecast rows carry only the date and the Forecast cell. Pandas frames are otherwise reduced to their rows, index and the one predicted column.
- DraftForecaster.Split: `int(len(series) * 0.2)` is read as `len(series) div 5`. The rounding of the floating-point product is not modelled.
- In the draft, the constructor and the `forecast_len` property (forecaster.py:42-57) recurse without end, so `DraftLSTMForecaster.constructor` stands in for what they mean to set. The call of the scaler object on an unassigned name (line 66), the reshape of `X_prep` (line 83, which fails for no windows or lags other than 1), the extra list around each lookback (line 78) and `model.fit` are left out. The windows read the data passed to `__prepare_data`, since `self.__scaled_data` is never assigned.
- sigpytch/metrics.py (floating-point rolling statistics), tests/autoDCF.py, tests/test_refinitiv.py and tests/test_metrics.py (network calls and display) are not part of this model. sigpytch/periods.py contributes its two constants, as the `Periods` module.
