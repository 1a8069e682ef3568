# AI stock analyzer: the verified core

A Dafny model of the sequential rules of a small stock-analysis web app.
The app has a React front end with two views, and a Flask back end that
ingests prices from a ticker service into two SQL tables and trains a
forecaster on them. The model covers:

- **Portfolio view** (`portfolio.dfy`, module `Portfolio`). The class
  `PortfolioOptimizer` holds the ordered symbol list, the input field, and
  the loading, error and result state. Its methods are `addSymbol`,
  `removeSymbol` and `handleOptimize`. The new lists are given by the pure
  functions `WithSymbol` and `Without`. The invariant kept is that the list
  has no duplicates.
- **Analysis view** (`analysis.dfy`, module `Analysis`). The class `App`
  holds the symbol and the state that `handleFetchAndPredict` sets step by
  step. Each of its two server calls is a parameter saying how the call
  settles. `ChartData` is the chart projection.
- **Ingestion and queries** (`models.dfy`, `services.dfy`).
  - The stock and price tables are sequences of rows, and the class
    `Database` holds them.
  - `FetchStockData` is proved against the specification function `Ingest`.
    It finds or creates the stock under the upper-cased symbol, runs an
    insert-if-absent loop over the history rows keyed by (stock, date),
    commits, and rolls back on an exception.
  - The parameter `Fault` says where an exception strikes.
  - `GetStockPrices` is the newest-first, limited query.
- **Training and prediction** (`model_utils.dfy`, `ml_service.dfy`).
  - `StockPredictor` holds `model`, which stays `None` until `Train`
    succeeds.
  - `PrepareData` selects the oldest rows of a stock in ascending order.
  - `Predict` and `Evaluate` guard on the model.
  - `TrainAndPredict` runs the checks in order: stock, data, training, then
    prediction. The first check that fails decides the answer.
  - Prophet fitting is represented by the observations a model was fitted
    on. Forecasting and scoring are function parameters.
- **Helpers.**
  - `text.dfy` holds JavaScript `trim`, using the ECMAScript white-space and
    line-terminator set, and upper-casing.
  - `wrappers.dfy` holds `Option` and `Min`.

The view stores what the optimize call resolves with as `result`
(PortfolioOptimizer.jsx:54) and reads `result.optimal_portfolio` and
`result.efficient_frontier` from it (lines 62 and 146-197), so it expects
the call to resolve with the portfolio payload. The client module shown (`frontend/src/services/api.js:5-33`) has
no `optimizePortfolio`, so calling it throws a `TypeError` that carries no
HTTP response. The model follows the code: `HandleOptimize` takes the
outcome as a parameter and never assumes success, and `ShippedOptimize`
shows what the client as shipped actually does (see Findings).

## Model

| member | source | states |
|---|---|---|
| Text.Upper | frontend/src/components/PortfolioOptimizer.jsx:32 | Upper-casing keeps the length, maps each character by itself, and leaves no lower-case ASCII letter. |
| Text.Trim | frontend/src/components/PortfolioOptimizer.jsx:32 | The result has no white space at either end. It is the slice of the input between two positions, with only white space outside them. It is empty exactly when the input is all white space, and trimming a trimmed string changes nothing. |
| Text.UpperKeepsTrimmed | frontend/src/components/PortfolioOptimizer.jsx:32 | Upper-casing a trimmed string keeps it trimmed, and upper-casing twice is upper-casing once. |
| Models.FindBySymbol | backend/app/services.py:15 | The lookup answers `None` exactly when no stock row has the key as its symbol; otherwise it answers a row of the table with that symbol. |
| Models.PricesOf | backend/app/services.py:56 | The filter keeps exactly the stock's own price rows, in table order. |
| Models.SortByDate | backend/app/services.py:57 | The rows are ordered by date in the requested direction and are a permutation of the input. |
| Models.Query | backend/app/services.py:56-59 | The query returns `min(limit, n)` of the stock's `n` rows, all of them the stock's own, ordered by date. No row of the stock that is left out comes before a row that is returned. The result is a sub-multiset of the stock's rows, so no row is repeated. |
| Services.StagePrices | backend/app/services.py:25-41 | The history loop raises exactly when the fault strikes at one of its rows. Otherwise the rows it stages are exactly the rows `PendingRows` gives for the dates not yet present. |
| Services.PendingRowsKeepKeysUnique | backend/app/services.py:26-41 | Staging keeps (stock, date) unique across committed and staged rows, and every staged row belongs to the stock. |
| Services.PendingRowsCoverHistory | backend/app/services.py:25-41 | After staging, every history date has a price row for the stock. |
| Services.PendingRowsNoneWhenCovered | backend/app/services.py:31 | If every history date already has a row for the stock, nothing is staged. |
| Services.IngestKeepsConsistent | backend/app/services.py:15-43 | Ingestion preserves the table invariant: one stock per symbol, unique and bounded ids, one price per (stock, date), and every price refers to a stock. |
| Services.IngestFailure | backend/app/services.py:46-48 | Ingestion fails exactly when one of its steps raises. The error is the exception's text, and the price table is left as it was. |
| Services.CommittedStockSurvivesRollback | backend/app/services.py:22-23 | A stock created and committed before a later exception stays in the table, while the staged prices are dropped. |
| Services.IngestSuccess | backend/app/services.py:15-44 | On success the answer is the stock stored under the upper-cased symbol. It is either the existing row, unchanged, or a new row whose name falls back to the symbol as given and whose sector falls back to "Unknown". Old price rows are kept in place, every added row is built from a history row for that stock, and every history date has a row. |
| Services.PendingFromHistory | backend/app/services.py:25-41 | Every row the history loop stages is built from one of the history rows. |
| Services.IngestLeavesOtherStocks | backend/app/services.py:25-43 | Ingestion never changes the prices of any other stock. |
| Services.IngestIdempotent | backend/app/services.py:25-43 | Ingesting the same history a second time changes neither table, whatever the ticker info says. |
| Services.Database.FetchStockData | backend/app/services.py:9-48 | The in-place ingestion leaves exactly the tables and the answer of `Ingest`, and it keeps the table invariant. |
| Services.GetStockPrices | backend/app/services.py:51-64 | The answer is `None` exactly for an unknown upper-cased symbol. Otherwise it holds that stock and `min(limit, n)` of its own rows, newest first, and every row of the stock newer than a returned row is returned. The rows are a sub-multiset of the stock's own rows. |
| ModelUtils.PrepareData | backend/app/ml/model_utils.py:15-29 | The answer is `None` exactly when the stock has no prices (or `days` is 0). Otherwise it holds the selection `OldestObservations`. |
| ModelUtils.OldestObservations | backend/app/ml/model_utils.py:15-29 | The selection holds `min(days, n)` (ds, y) rows from the stock's own prices, in ascending date order, and every price older than a kept row is kept, so these are the oldest rows. It is a sub-multiset of the observations of the stock's rows, so no price is taken twice. |
| ModelUtils.ObservationsSubMultiset | backend/app/ml/model_utils.py:25-27 | Turning rows into (ds, y) observations keeps a sub-multiset relation between row sequences. |
| ModelUtils.LastPredictions | backend/app/ml/model_utils.py:52 | The result has the last `min(periods, rows)` forecast rows, in order, each reduced to ds, yhat, yhat_lower and yhat_upper. |
| ModelUtils.StockPredictor.constructor | backend/app/ml/model_utils.py:11-13 | A new predictor has no model. |
| ModelUtils.StockPredictor.Train | backend/app/ml/model_utils.py:31-43 | Training fails exactly for a missing frame or one of fewer than 10 rows. It then fails with "Insufficient data for training" and leaves the model unchanged. Otherwise the model is the one fitted on the frame. |
| ModelUtils.StockPredictor.Predict | backend/app/ml/model_utils.py:45-57 | Without a model the answer is "Model not trained". Otherwise it is the last `min(periods, rows)` forecast rows, each reduced to ds, yhat, yhat_lower and yhat_upper. |
| ModelUtils.StockPredictor.Evaluate | backend/app/ml/model_utils.py:59-71 | The answer is `None` exactly when the model or the frame is missing. Otherwise it is the scorer's mae/rmse record. |
| ModelUtils.StockPredictor.SaveModel | backend/app/ml/model_utils.py:73-78 | The model is saved exactly when there is one, and the file then holds it. Otherwise the file is untouched. |
| ModelUtils.StockPredictor.LoadModel | backend/app/ml/model_utils.py:80-84 | The model is loaded exactly when the file exists. Otherwise the model is kept. |
| MlService.TrainAndPredict | backend/app/ml_service.py:7-33 | The first failing check decides the answer: "Stock not found", then "No price data available", then the trainer's own error. Otherwise the answer holds the stock, the metrics of the model fitted on the frame, and the last `periods` predictions. "Model not trained" is never returned. |
| Portfolio.InitialSymbolsDistinct | frontend/src/components/PortfolioOptimizer.jsx:26 | The initial list has three entries and no duplicates. |
| Portfolio.Normalize | frontend/src/components/PortfolioOptimizer.jsx:32 | The entry is trimmed and has no lower-case ASCII letter. It is empty exactly when the input is all white space, and index by index it is the upper-cased trimmed input. |
| Portfolio.NormalizeIdempotent | frontend/src/components/PortfolioOptimizer.jsx:32 | Normalizing twice is normalizing once. |
| Portfolio.WithSymbol | frontend/src/components/PortfolioOptimizer.jsx:33-36 | The old list stays as a prefix. The list grows by one exactly when the entry is non-empty and not listed, and the new last element is that entry. Distinctness is kept. |
| Portfolio.Without | frontend/src/components/PortfolioOptimizer.jsx:40 | The symbol is absent from the result, and every other symbol is there exactly when it was there before. |
| Portfolio.WithoutAppend | frontend/src/components/PortfolioOptimizer.jsx:40 | Removal distributes over concatenation, so the kept entries stay in relative order. |
| Portfolio.WithoutAbsent | frontend/src/components/PortfolioOptimizer.jsx:40 | Removing an absent symbol changes nothing. |
| Portfolio.WithoutIdempotent | frontend/src/components/PortfolioOptimizer.jsx:40 | Removing twice is removing once. |
| Portfolio.WithoutKeepsDistinct | frontend/src/components/PortfolioOptimizer.jsx:40 | Removal keeps the list free of duplicates. |
| Portfolio.FailureMessage | frontend/src/components/PortfolioOptimizer.jsx:56 | The message is the response's error when that is a non-empty string, and "Optimization failed" otherwise. |
| Portfolio.ChartData | frontend/src/components/PortfolioOptimizer.jsx:62 | The chart points are the result's frontier, or no points when there is no result or the result has no frontier. |
| Portfolio.PortfolioOptimizer.constructor | frontend/src/components/PortfolioOptimizer.jsx:25-29 | The initial state is an empty input, AAPL, GOOGL and MSFT, not loading, and no error or result. |
| Portfolio.PortfolioOptimizer.TypeSymbol | frontend/src/components/PortfolioOptimizer.jsx:81 | The field stores the typed text upper-cased. |
| Portfolio.PortfolioOptimizer.CanAdd | frontend/src/components/PortfolioOptimizer.jsx:91 | "Add Stock" is enabled exactly when `addSymbol` has a non-empty entry to add. |
| Portfolio.PortfolioOptimizer.AddSymbol | frontend/src/components/PortfolioOptimizer.jsx:31-37 | The list becomes `WithSymbol` of the old list and input, and the invariant is kept. The input is cleared only when the entry was added; otherwise both fields are unchanged. |
| Portfolio.PortfolioOptimizer.RemoveSymbol | frontend/src/components/PortfolioOptimizer.jsx:39-41 | The list becomes `Without` of the old list, and the invariant is kept. |
| Portfolio.PortfolioOptimizer.HandleOptimize | frontend/src/components/PortfolioOptimizer.jsx:43-60 | With fewer than 2 symbols: exactly "Add at least 2 stocks", no call, and loading and result unchanged. Otherwise: one call made while loading with no error shown, then either the payload replaces the result with no error, or the failure message is shown and the result kept. Loading ends false. |
| Portfolio.OptimizeInitial | frontend/src/components/PortfolioOptimizer.jsx:43-60 | From a fresh view the call is made with the three initial symbols for "1y". The outcome alone decides the final error and result, and loading ends false. |
| Portfolio.ShippedOptimize | frontend/src/services/api.js:5-33 | With the client as shipped, which lacks the optimize call, optimizing always ends in "Optimization failed" with no result. |
| Analysis.ThrowMessage | frontend/src/App.jsx:44 | The message is the thrown message when it is non-empty, and "Failed to fetch data" otherwise. |
| Analysis.ChartRows | frontend/src/App.jsx:50-55 | There is one chart row per prediction, in the same order, each built from that prediction's fields. |
| Analysis.ChartData | frontend/src/App.jsx:50-55 | There are no rows without predictions. Otherwise there are as many rows as predictions, index by index. |
| Analysis.App.constructor | frontend/src/App.jsx:20-25 | The initial state is AAPL, not loading, and no error, stock, predictions or metrics. |
| Analysis.App.TypeSymbol | frontend/src/App.jsx:85 | The symbol is stored upper-cased. |
| Analysis.App.HandleFetchAndPredict | frontend/src/App.jsx:27-48 | Fetch is called first, and predict only when fetch resolves. Both calls are made while loading with the error cleared. Success takes stock, predictions and metrics from the one response. A reported failure shows its error verbatim, and a throw shows its message or the fallback; both keep the old data. Loading ends false. |

The two button conditions have no contract of their own:
`Portfolio.PortfolioOptimizer.CanOptimize` (PortfolioOptimizer.jsx line
114: not loading and at least two symbols) and `Analysis.App.CanAnalyze`
(App.jsx line 94: not loading and a non-empty symbol).

## Left out

- `backend/app/portfolio_optimizer.py` is not part of this model. It is SLSQP optimisation, covariance and random-weight floating-point numerics, and network fetches. Its answer appears only as the abstract `OptimizeResult`.
- The fitting and forecasting internals of Prophet, sklearn's MAE/RMSE, and `round(..., 2)` are floating-point numerics. They are represented by the `Forecaster` and `Scorer` parameters and by `FittedModel(trainedOn)`.
- ModelUtils.StockPredictor.Train: an exception raised inside `fit` is not modelled, so the case where it would leave an unfitted model set is missing.
- ModelUtils.StockPredictor.SaveModel and LoadModel: joblib files and the directory creation are modelled as an optional stored model passed in and out.
- The yfinance calls are parameters: the ticker's info (`TickerInfo`), its history rows (`HistoryRow`) and where an exception occurs (`Fault`). The history's dates are taken as already converted to calendar dates.
- The SQLAlchemy session is modelled by committed tables plus staged rows. The loop's existence query sees the rows staged earlier in the same batch, as with autoflush, and the rollback drops every staged row. Integrity errors raised by the database itself are not modelled.
- `backend/app/models.py` is not part of this model. The stock and price columns and `to_dict` are taken from their uses in `services.py`. Ids are assigned from a counter starting at 1.
- Text.Upper: only ASCII letters are upper-cased. The full Unicode case mapping of JavaScript `toUpperCase` and Python `upper` is not modelled.
- Models.Query and ModelUtils.PrepareData: `limit`, `days` and `periods` are natural numbers, so negative values, which SQL and pandas treat specially, are not modelled.
- Models.SortByDate: the order among rows with equal dates is left unspecified, since the database does not fix it; under the table invariant one stock never has two rows for the same date.
- Analysis.ChartData: `toLocaleDateString` and `toFixed(2)` are the function parameters `formatDate` and `fixed2`.
- React rendering, MUI and recharts are not modelled. The allocation table's iteration order is not modelled either.
- Overlapping async requests and out-of-order responses are not modelled; one handler runs at a time, and the intermediate UI states are recorded in a ghost out-parameter.
- The axios wrapper `frontend/src/services/api.js` is not modelled; each call is an abstract outcome.
- The Flask, CORS and SocketIO setup and the stub routes (`backend/app/__init__.py`, `backend/app/api/endpoints.py`) are not modelled.

## Findings

| source | as written | input that shows it | evidently intended | confidence | as-written member | corrected member |
|---|---|---|---|---|---|---|
| frontend/src/components/PortfolioOptimizer.jsx:53 | `handleOptimize` calls `stockAPI.optimizePortfolio`, which the client object in `frontend/src/services/api.js:5-33` does not define, so the call throws a `TypeError` with no response. | Press "Optimize Portfolio" with the initial AAPL, GOOGL, MSFT. | The symbols are posted for "1y" and the returned portfolio replaces the result. | high; not executed | Portfolio.ShippedOptimize | Portfolio.OptimizeInitial |
