/**
 * The training-and-prediction service: look up the stock, prepare its
 * price frame, train a fresh predictor, evaluate it and forecast. The checks
 * run in that order and the first one that fails decides the response.
 */
module MlService {
  import opened Wrappers
  import opened Text
  import opened Models
  import opened ModelUtils

  const StockNotFound := "Stock not found"
  const NoPriceData := "No price data available"

  datatype PredictionResponse =
    | PredictionOk(stock: Stock, metrics: Option<Metrics>, predictions: seq<Prediction>)
    | PredictionFailed(error: string)

  /**
   * train_and_predict over the tables `t`: "Stock not found" for an unknown
   * upper-cased symbol, "No price data available" when the oldest-year
   * frame is empty, the trainer's own error when it has fewer than ten rows,
   * and otherwise the stock, the metrics of the model fitted on that frame and
   * the last `periods` forecast rows. The "Model not trained" answer of the
   * predictor is never returned: a successful training always sets the model.
   */
  method TrainAndPredict(t: Tables, symbol: string, periods: nat, forecast: Forecaster, score: Scorer)
    returns (r: PredictionResponse)
    ensures FindBySymbol(t.stocks, Upper(symbol)).None? ==> r == PredictionFailed(StockNotFound)
    ensures FindBySymbol(t.stocks, Upper(symbol)).Some? ==>
      var stock := FindBySymbol(t.stocks, Upper(symbol)).value;
      var df := PrepareData(t.prices, stock.id, DefaultDays);
      && (df.None? ==> r == PredictionFailed(NoPriceData))
      && (df.Some? && |df.value| < MinTrainingRows ==> r == PredictionFailed(InsufficientData))
      && (df.Some? && |df.value| >= MinTrainingRows ==>
            var model := FittedModel(df.value);
            r == PredictionOk(stock, Some(score(model, df.value)), LastPredictions(forecast(model, periods), periods)))
    ensures r != PredictionFailed(NotTrained)
  {
    assert StockNotFound != NotTrained && NoPriceData != NotTrained && InsufficientData != NotTrained by {
      assert StockNotFound[0] != NotTrained[0] && NoPriceData[0] != NotTrained[0];
      assert InsufficientData[0] != NotTrained[0];
    }
    var found := FindBySymbol(t.stocks, Upper(symbol));
    if found.None? {
      return PredictionFailed(StockNotFound);
    }
    var stock := found.value;
    var predictor := new StockPredictor(symbol);
    var df := PrepareData(t.prices, stock.id, DefaultDays);
    if df.None? {
      return PredictionFailed(NoPriceData);
    }
    var trained := predictor.Train(df);
    if trained.TrainFailed? {
      return PredictionFailed(trained.error);
    }
    var metrics := predictor.Evaluate(df, score);
    var predicted := predictor.Predict(forecast, periods);
    match predicted
    case Predicted(predictions) =>
      r := PredictionOk(stock, metrics, predictions);
  }
}
