/**
 * The single-stock analysis view: a symbol field and one handler that asks
 * the server to ingest the stock's recent history and then to predict, with
 * the loading, error, stock, prediction and metrics state it updates. Both
 * calls are parameters: how each one settles.
 */
module Analysis {
  import opened Wrappers
  import opened Text

  datatype StockInfo = StockInfo(symbol: string, name: string, sector: string)

  datatype MetricsInfo = MetricsInfo(mae: real, rmse: real)

  /** A forecast point as it arrives: `ds` is the date text. */
  datatype PredictionPoint = PredictionPoint(ds: string, yhat: real, yhatLower: real, yhatUpper: real)

  /** The predict endpoint's body; absent fields are `None`. */
  datatype PredictResponse = PredictResponse(
    success: bool, error: Option<string>,
    stock: Option<StockInfo>, predictions: Option<seq<PredictionPoint>>, metrics: Option<MetricsInfo>)

  /** The ingestion endpoint's body. */
  datatype FetchResponse = FetchResponse(success: bool, error: Option<string>)

  /** How a call settles: with the response body, or by throwing an error whose message is `message`. */
  datatype Settled<T> = Resolved(body: T) | Threw(message: string)

  datatype ApiCall = FetchStockData(symbol: string, period: string) | PredictStock(symbol: string, periods: nat)

  /** A point of the forecast chart, with its date and numbers formatted for display. */
  datatype ChartRow = ChartRow(date: string, predicted: string, lower: string, upper: string)

  const InitialSymbol := "AAPL"
  const FetchPeriod := "3mo"
  const PredictPeriods: nat := 7
  const FetchFallback := "Failed to fetch data"

  /** `err.message || 'Failed to fetch data'`. */
  function ThrowMessage(message: string): (m: string)
    ensures m != ""
    ensures message != "" ==> m == message
    ensures message == "" ==> m == FetchFallback
  {
    if message != "" then message else FetchFallback
  }

  function ChartRows(points: seq<PredictionPoint>, formatDate: string -> string, fixed2: real -> string): (rows: seq<ChartRow>)
    ensures |rows| == |points|
    ensures forall i :: 0 <= i < |points| ==>
      rows[i] == ChartRow(formatDate(points[i].ds), fixed2(points[i].yhat), fixed2(points[i].yhatLower), fixed2(points[i].yhatUpper))
  {
    if points == [] then []
    else
      var p := points[0];
      [ChartRow(formatDate(p.ds), fixed2(p.yhat), fixed2(p.yhatLower), fixed2(p.yhatUpper))]
        + ChartRows(points[1..], formatDate, fixed2)
  }

  /**
   * chartData: no rows without predictions, else one row per prediction in
   * the same order; `formatDate` stands for toLocaleDateString and `fixed2`
   * for toFixed(2).
   */
  function ChartData(predictions: Option<seq<PredictionPoint>>, formatDate: string -> string, fixed2: real -> string): (rows: seq<ChartRow>)
    ensures predictions.None? ==> rows == []
    ensures predictions.Some? ==> |rows| == |predictions.value|
    ensures predictions.Some? ==> forall i :: 0 <= i < |rows| ==>
      && rows[i].date == formatDate(predictions.value[i].ds)
      && rows[i].predicted == fixed2(predictions.value[i].yhat)
      && rows[i].lower == fixed2(predictions.value[i].yhatLower)
      && rows[i].upper == fixed2(predictions.value[i].yhatUpper)
  {
    match predictions
    case None => []
    case Some(points) => ChartRows(points, formatDate, fixed2)
  }

  class App {
    var symbol: string
    var loading: bool
    var error: Option<string>
    var stockData: Option<StockInfo>
    var predictions: Option<seq<PredictionPoint>>
    var metrics: Option<MetricsInfo>

    constructor ()
      ensures symbol == InitialSymbol && !loading
      ensures error == None && stockData == None && predictions == None && metrics == None
    {
      symbol := InitialSymbol;
      loading := false;
      error := None;
      stockData := None;
      predictions := None;
      metrics := None;
    }

    /** The symbol field's change handler stores the typed text upper-cased (not trimmed). */
    method TypeSymbol(typed: string)
      modifies this`symbol
      ensures symbol == Upper(typed)
    {
      symbol := Upper(typed);
    }

    /** The "Analyze & Predict" button is disabled while loading or while the symbol is empty. */
    predicate CanAnalyze()
      reads this
    {
      !loading && symbol != ""
    }

    /**
     * handleFetchAndPredict, with `fetch` and `predict` for how the two calls
     * settle. Both calls are made while loading with no error shown, the
     * prediction only once ingestion has resolved (its body is not read). A
     * successful prediction replaces stock, predictions and metrics from that
     * one body; a reported failure shows its error verbatim; a throw shows
     * its message or the fallback; the last two keep the previous data.
     * Loading ends false whatever happens.
     */
    method HandleFetchAndPredict(fetch: Settled<FetchResponse>, predict: Settled<PredictResponse>)
      returns (calls: seq<ApiCall>, ghost shownDuringCalls: seq<(bool, Option<string>)>)
      modifies this`loading, this`error, this`stockData, this`predictions, this`metrics
      ensures !loading
      ensures calls == if fetch.Resolved? then [FetchStockData(symbol, FetchPeriod), PredictStock(symbol, PredictPeriods)]
                       else [FetchStockData(symbol, FetchPeriod)]
      ensures |shownDuringCalls| == |calls| && forall k :: 0 <= k < |calls| ==> shownDuringCalls[k] == (true, None)
      ensures fetch.Threw? ==>
        && error == Some(ThrowMessage(fetch.message))
        && stockData == old(stockData) && predictions == old(predictions) && metrics == old(metrics)
      ensures fetch.Resolved? && predict.Threw? ==>
        && error == Some(ThrowMessage(predict.message))
        && stockData == old(stockData) && predictions == old(predictions) && metrics == old(metrics)
      ensures fetch.Resolved? && predict.Resolved? && predict.body.success ==>
        && error == None
        && stockData == predict.body.stock && predictions == predict.body.predictions && metrics == predict.body.metrics
      ensures fetch.Resolved? && predict.Resolved? && !predict.body.success ==>
        && error == predict.body.error
        && stockData == old(stockData) && predictions == old(predictions) && metrics == old(metrics)
    {
      loading := true;
      error := None;
      calls := [FetchStockData(symbol, FetchPeriod)];
      shownDuringCalls := [(loading, error)];
      match fetch {
        case Threw(message) =>
          error := Some(ThrowMessage(message));
        case Resolved(_) =>
          calls := calls + [PredictStock(symbol, PredictPeriods)];
          shownDuringCalls := shownDuringCalls + [(loading, error)];
          match predict {
            case Threw(message) =>
              error := Some(ThrowMessage(message));
            case Resolved(body) =>
              if body.success {
                stockData := body.stock;
                predictions := body.predictions;
                metrics := body.metrics;
              } else {
                error := body.error;
              }
          }
      }
      loading := false;
    }
  }
}
