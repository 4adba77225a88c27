# Stock forecasting windows and backtest questions, in Dafny

This project models the two pieces of logic in the backend that have real
control flow:

- **Walk-forward evaluation** (`app/routers/stock_prediction.py`). Both
  `predict` and `long_term_eval` receive a price series newest-first and
  reverse it to oldest-first.
  - `long_term_eval` keeps at most the 3000 most recent points and rejects a
    series shorter than `context_length + prediction_length`. It then slides
    non-overlapping windows: `index` starts at `context_length` and advances
    by `prediction_length`. Each window forecasts from the `context_length`
    points before `index` and collects the next `prediction_length` actual
    points.
  - `predict` forecasts once from the trailing `context_length` points.

  The forecasting model is a function-typed parameter `Forecaster` that maps
  a context and a horizon to the forecast's central estimate. `Horizon(f, p)`
  is the hypothesis that the model returns `p` values.
- **Backtest question generation** (`gen_question` in
  `app/routers/backtesting.py`). It has four parts:
  - the nested price normaliser `normalize_prices`;
  - the buy/sell label, a substring test for `買`;
  - the explanation list built from the drawn record's fields;
  - a retry loop of at most 10 draws. The first draw with at least 140
    normalised previous candlesticks becomes the question.

  The random draws are a given sequence of pool positions. The two price
  fetchers are function-typed parameters. Python's `str` of a number and
  `float` of a string are also parameters (`Coercions`), because a Dafny
  `real` has no Python text form.

Modules:

- `Results`: `Option` and `Result`. `Err` stands for an exception the source raises.
- `Selection`: `Kept`, the increasing positions a filter keeps. The normaliser's and the explanation list's order guarantees are stated through it.
- `StockPrediction`: the evaluation core.
- `Backtesting`: the question generator.

A record (a Python dict) is a sequence of `Field(key, value)` in insertion
order, not a `map`. This is because the explanation list follows the dict's
iteration order. `Get` returns the first field with the key, or `Null` when
the key is absent. Values are `Null | Text | Number`, and `Truthy` is Python
truthiness: None, `""` and `0` are false.

Behaviour of the source worth noting:

- The normaliser drops a record when a required value is falsy, so a zero
  price drops it too. It is not a null check.
- The normaliser is not total: a surviving record whose price (or non-None
  volume) `float()` cannot convert raises. The model returns
  `Err(ConversionFailed)` on that path.
- If normalising the after-prices raises, the whole call raises, even when
  the draw would have failed the 140-bar gate.

## Model

| member | source | states |
|---|---|---|
| `StockPrediction.Reverse` | app/routers/stock_prediction.py:32 | the reversal keeps the length and puts input element `|s|-1-i` at position `i` |
| `StockPrediction.ReverseInvolutive` | app/routers/stock_prediction.py:67-69 | reversing twice gives back the series |
| `StockPrediction.ReverseSuffix` | app/routers/stock_prediction.py:32-44 | the last `n` points of the reversed series are the first `n` input points, reversed |
| `StockPrediction.Chronological` | app/routers/stock_prediction.py:67-73 | the evaluated series holds the newest `min(len, 3000)` inputs, where `n` is its length, and its element `i` is input element `n - 1 - i`, so it runs oldest first |
| `StockPrediction.MostRecent` | app/routers/stock_prediction.py:71-73 | a series longer than 3000 keeps exactly its last 3000 points; a shorter one is returned unchanged |
| `StockPrediction.ChronologicalKeepsNewest` | app/routers/stock_prediction.py:66-73 | reversal comes before truncation, so the evaluated series is the newest `min(len, 3000)` inputs (the first ones), oldest first |
| `StockPrediction.WindowCount` | app/routers/stock_prediction.py:89-110 | the window count `(lens - c) / p` is the number of windows whose truth ends inside the series; one more window would overrun it |
| `StockPrediction.WindowCountUnique` | app/routers/stock_prediction.py:94-110 | any count `k` with `c + k*p <= lens < c + (k+1)*p` is the window count, so the loop runs exactly that many times |
| `StockPrediction.Context` | app/routers/stock_prediction.py:95 | a window's context has `c` points, the ones just before `index` |
| `StockPrediction.Truth` | app/routers/stock_prediction.py:105 | a window's truth has `p` points, the ones starting at `index` |
| `StockPrediction.ContextMeetsTruth` | app/routers/stock_prediction.py:95-105 | context followed by truth is one contiguous slice: the context ends where the truth begins |
| `StockPrediction.Forecasts` | app/routers/stock_prediction.py:93-110 | the `pred_values` accumulator after `k` windows, window `j` forecast from the `c` points before `c + j*p`; with a model that returns `p` values per call, it holds exactly `k*p` values, as many as the actual values of those windows |
| `StockPrediction.ForecastsSeeOnlyThePast` | app/routers/stock_prediction.py:93-110 | no lookahead: the first `k` forecasts depend only on the points before window `k`'s start index |
| `StockPrediction.ExactFitIsOneWindow` | app/routers/stock_prediction.py:79-110 | a series of exactly `c + p` points gives exactly one window |
| `StockPrediction.Predict` | app/routers/stock_prediction.py:29-57 | fails exactly when the series has fewer than `c + 1` points; otherwise returns the forecast from the first `c` input points, reversed (the newest `c`, oldest first) |
| `StockPrediction.SlideWindows` | app/routers/stock_prediction.py:89-110 | given at least `c + p` chronological points: there is at least one window. The actual values are the one contiguous slice `data[c .. c + W*p)`, and any tail shorter than `p` is dropped. The predictions are the forecasts of exactly `W` windows, each made from the `c` points before its start index. With a horizon-respecting model, predicted and actual have equal length |
| `StockPrediction.LongTermEval` | app/routers/stock_prediction.py:63-120 | fails exactly when the reversed, truncated series is shorter than `c + p`, before any forecast is made; otherwise returns the window loop's result on that series |
| `Backtesting.Resolve` | app/routers/backtesting.py:113-117 | the primary key's value when truthy, else the alias's value; the result is truthy exactly when either is |
| `Backtesting.ReplaceSpaces` | app/routers/backtesting.py:125 | same length, every space becomes `T`, every other character is kept |
| `Backtesting.NormalizeRecord` | app/routers/backtesting.py:112-133 | a record is dropped exactly when one of the resolved date/open/high/low/close values is falsy. A surviving record raises exactly when a `float` fails. Otherwise its candlestick has the space-free date, the converted prices, and volume 0.0 when volume is absent or None |
| `Backtesting.Normalized` | app/routers/backtesting.py:110-134 | what `normalize_prices` returns: the only exception it raises is the conversion error; `NormalizedFailsIff` and `NormalizedKeepsSurvivors` state when it raises and what it returns otherwise |
| `Backtesting.NormalizedErrorPersists` | app/routers/backtesting.py:110-134 | once a record raises, the whole normalisation has raised |
| `Backtesting.NormalizedFailsIff` | app/routers/backtesting.py:120-132 | normalisation raises exactly when some record survives the falsy test but cannot be converted |
| `Backtesting.NormalizedKeepsSurvivors` | app/routers/backtesting.py:110-134 | on success: one candlestick per surviving record, built from that record, in input order; never more candlesticks than records |
| `Backtesting.NormalizePrices` | app/routers/backtesting.py:110-134 | the append loop computes exactly the normalisation above |
| `Backtesting.CorrectAnswer` | app/routers/backtesting.py:68 | "buy" exactly when `str(Trade_Signal)` contains `買`, "sell" otherwise |
| `Backtesting.SignalExamples` | app/routers/backtesting.py:68 | "買進" and "強烈買進" are buy; "賣出" and a missing signal are sell |
| `Backtesting.Explanations` | app/routers/backtesting.py:70-85 | the explanation comprehension gives at most one line per field; `ExplanationsListShownFields` states exactly which lines |
| `Backtesting.ExplanationsListShownFields` | app/routers/backtesting.py:70-85 | one `指標{k}: {v}` line for each field whose key is not among the eight excluded names and whose value is not `""`, in field order, and nothing else |
| `Backtesting.OrEmpty` | app/routers/backtesting.py:95-107 | a non-dict fetch result becomes the empty default; a dict passes through unchanged |
| `Backtesting.Attempt` | app/routers/backtesting.py:63-161 | one draw raises exactly when normalising the previous or the after prices raises; otherwise it is accepted exactly when the previous prices normalise to at least 140 candlesticks, and rejected with that count of bars otherwise. An accepted question holds both normalised price lists, the previous indicators, and the record's symbol, label and explanations |
| `Backtesting.NonMappingIsRejected` | app/routers/backtesting.py:95-146 | a non-dict previous-price fetch gives 0 previous bars, so the draw is rejected by the gate, unless the after-prices raise |
| `Backtesting.DrawAttempt` | app/routers/backtesting.py:63-161 | the loop body's steps compute exactly one `Attempt` |
| `Backtesting.GenQuestion` | app/routers/backtesting.py:39-164 | an empty pool raises before any draw. Otherwise there are between 1 and 10 draws, and every draw before the deciding one was rejected by the gate. The deciding draw either returns its question at once or raises a conversion error. If it is the tenth rejection, the call raises after exactly 10 draws. A returned question has at least 140 previous prices |

## Left out

- The cosine similarity (app/routers/stock_prediction.py:112-116) is left out because it is floating-point numerics with `numpy.linalg.norm` and a `1e-9` epsilon. `Evaluation` holds the two accumulators it would consume.
- Model loading, quantile requests, `bfloat16`/`float32` tensors and the CUDA device are left out. The model is the `Forecaster` parameter, and only its central estimate (`mean[0]`) is modelled.
- Numbers are `real`, so the model has no float64 rounding, NaN or infinity. Python treats a NaN price as truthy; it is not modelled.
- An exception raised by the model or by a fetcher is not modelled. The source propagates it as a failure of the whole request.
- `StockPrediction.Predict`: requires `c >= 1`. With `c <= 0`, Python's `data[-0:]` is the whole array, so that case is excluded rather than modelled.
- `StockPrediction.LongTermEval`: requires `c >= 1` and `p >= 1`. With `p <= 0` the source's loop would not terminate.
- Random sampling (`DataFrame.sample(n=1)`) is replaced by a given sequence of pool positions (`ValidDraws`). Repeated positions are allowed, as with independent draws.
- The pool query and the price fetchers in app/routers/backtesting_module/db.py are not part of this model: SQL, encoding retries and DataFrame handling. The fetchers are the `Fetcher` parameters. A dict result missing `candlesticks` or `technical_indicator` is represented by its default (`[]` or `{}`).
- Python's `str()` of a number and `float()` of a string are the `Coercions` parameters; number formatting and parsing are not modelled.
- `Number(x: real)` stands for Python's `int`, `float` and `Decimal` alike. Their `str` differs for equal values (`5`, `5.0`, `5.00`), and the explanation lines and the `Trade_Signal` test use that `str`, so the model gives equal numbers one text form.
- The request's price list is converted with `np.array(..., dtype=float)` (app/routers/stock_prediction.py:30,67), which parses string items and raises on text it cannot parse. The model takes the series as reals, so that conversion and its exception are outside the model.
- FastAPI routing, `HTTPException` wrapping, pydantic validation of `Question`/`PriceData`/`PredictRequest` (for example rejecting a None symbol), `jsonable_encoder` and the console logging are not modelled.
- `profitLoss` is always None when a question is built, so it is left out of `Question`.
- The global `log_buffer` and the `/pylog` route (app/routers/stock_prediction.py:11,126-128) are left out: they hold no logic, and popping the empty list raises.
- app/main.py (bootstrap and CSV loading) is not part of this model.
