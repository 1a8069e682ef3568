/**
 * The forecasting wrapper: a predictor whose model is absent until it is
 * trained on at least ten observations, the preparation of the training
 * frame from the price table, and the guards of prediction and evaluation.
 * Fitting and forecasting themselves are opaque: a fitted model is
 * represented by the observations it was fitted on, and forecasting and
 * scoring are function parameters.
 */
module ModelUtils {
  import opened Wrappers
  import opened Models

  /** One row of the training frame: the date `ds` and the closing price `y`. */
  datatype Observation = Observation(ds: Date, y: real)

  /** A model fitted on `trainedOn`. */
  datatype FittedModel = FittedModel(trainedOn: seq<Observation>)

  /** A row of the forecaster's output frame: the four columns read below and the others it also produces. */
  datatype ForecastRow = ForecastRow(ds: Date, yhat: real, yhatLower: real, yhatUpper: real, trend: real)

  /** A prediction record: exactly the fields ds, yhat, yhat_lower and yhat_upper. */
  datatype Prediction = Prediction(ds: Date, yhat: real, yhatLower: real, yhatUpper: real)

  /** An accuracy record: exactly the keys mae and rmse. */
  datatype Metrics = Metrics(mae: real, rmse: real)

  datatype TrainResult = Trained | TrainFailed(error: string)

  datatype PredictResult = Predicted(predictions: seq<Prediction>) | PredictFailed(error: string)

  /** The forecast over the training dates followed by `periods` future dates. */
  type Forecaster = (FittedModel, nat) -> seq<ForecastRow>

  /** The rounded mean absolute and root mean squared errors of the in-sample forecast. */
  type Scorer = (FittedModel, seq<Observation>) -> Metrics

  const MinTrainingRows: nat := 10
  const DefaultDays: nat := 365
  const InsufficientData := "Insufficient data for training"
  const NotTrained := "Model not trained"

  function Observe(p: PriceRow): Observation {
    Observation(p.date, p.closePrice)
  }

  function Observations(rows: seq<PriceRow>): (r: seq<Observation>)
    ensures |r| == |rows|
    ensures forall i :: 0 <= i < |rows| ==> r[i] == Observe(rows[i])
  {
    if rows == [] then [] else [Observe(rows[0])] + Observations(rows[1..])
  }

  /**
   * prepare_data: the oldest `days` prices of the stock, in ascending date
   * order, as (ds, y) rows; `None` when that selection is empty.
   */
  function PrepareData(prices: seq<PriceRow>, stockId: StockId, days: nat): (r: Option<seq<Observation>>)
    ensures r.None? <==> (days == 0 || PricesOf(prices, stockId) == [])
    ensures r.Some? ==> r.value == OldestObservations(prices, stockId, days)
  {
    var obs := OldestObservations(prices, stockId, days);
    if obs == [] then None else Some(obs)
  }

  /** The (ds, y) rows of the oldest-first query, with what `PrepareData` promises of them. */
  function OldestObservations(prices: seq<PriceRow>, id: StockId, days: nat): (obs: seq<Observation>)
    ensures |obs| == Min(days, |PricesOf(prices, id)|)
    ensures forall i, j :: 0 <= i < j < |obs| ==> obs[i].ds <= obs[j].ds
    ensures forall o :: o in obs ==> exists p :: p in PricesOf(prices, id) && Observe(p) == o
    ensures forall p, i :: p in PricesOf(prices, id) && 0 <= i < |obs| && p.date < obs[i].ds ==> Observe(p) in obs
    ensures multiset(obs) <= multiset(Observations(PricesOf(prices, id)))
  {
    OldestFacts(prices, id, days);
    Observations(Query(prices, id, false, days))
  }

  /** The facts `OldestObservations` promises, about the observations of the oldest-first query. */
  lemma OldestFacts(prices: seq<PriceRow>, id: StockId, days: nat)
    ensures var obs := Observations(Query(prices, id, false, days));
      && |obs| == Min(days, |PricesOf(prices, id)|)
      && (forall i, j :: 0 <= i < j < |obs| ==> obs[i].ds <= obs[j].ds)
      && (forall o :: o in obs ==> exists p :: p in PricesOf(prices, id) && Observe(p) == o)
      && (forall p, i :: p in PricesOf(prices, id) && 0 <= i < |obs| && p.date < obs[i].ds ==> Observe(p) in obs)
      && multiset(obs) <= multiset(Observations(PricesOf(prices, id)))
  {
    var rows := Query(prices, id, false, days);
    var obs := Observations(rows);
    assert multiset(obs) <= multiset(Observations(PricesOf(prices, id))) by {
      ObservationsSubMultiset(rows, PricesOf(prices, id));
    }
    assert forall p, i :: p in PricesOf(prices, id) && 0 <= i < |obs| && p.date < obs[i].ds ==> Observe(p) in obs by {
      OldestKept(prices, id, days);
      assert forall i :: 0 <= i < |obs| ==> obs[i].ds == rows[i].date;
    }
    ObservationsOfQuery(prices, id, days);
  }

  lemma ObservationsAppend(a: seq<PriceRow>, b: seq<PriceRow>)
    ensures Observations(a + b) == Observations(a) + Observations(b)
  {
    var l, r := Observations(a + b), Observations(a) + Observations(b);
    forall i | 0 <= i < |l| ensures l[i] == r[i] {
      if i < |a| {
        assert (a + b)[i] == a[i];
      } else {
        assert (a + b)[i] == b[i - |a|];
      }
    }
  }

  /** Observing the rows of a sub-multiset of `all` gives a sub-multiset of the observations of `all`. */
  lemma {:induction false} ObservationsSubMultiset(rows: seq<PriceRow>, all: seq<PriceRow>)
    requires multiset(rows) <= multiset(all)
    ensures multiset(Observations(rows)) <= multiset(Observations(all))
    decreases |rows|
  {
    if rows != [] {
      var x := rows[0];
      assert rows == [x] + rows[1..];
      assert x in multiset(all);
      var j :| 0 <= j < |all| && all[j] == x;
      var before, after := all[..j], all[j + 1..];
      assert all == before + ([x] + after);
      var rest := before + after;
      assert multiset(rest) == multiset(all) - multiset{x};
      ObservationsSubMultiset(rows[1..], rest);
      ObservationsAppend(before, [x] + after);
      ObservationsAppend([x], after);
      ObservationsAppend(before, after);
      ObservationsAppend([x], rows[1..]);
      assert Observations([x]) == [Observe(x)];
    }
  }

  /** The observations of the oldest-first query are in ascending date order and each comes from a price of the stock. */
  lemma ObservationsOfQuery(prices: seq<PriceRow>, id: StockId, days: nat)
    ensures var obs := Observations(Query(prices, id, false, days));
      && (forall i, j :: 0 <= i < j < |obs| ==> obs[i].ds <= obs[j].ds)
      && (forall o :: o in obs ==> exists p :: p in PricesOf(prices, id) && Observe(p) == o)
  {
    var rows := Query(prices, id, false, days);
    var obs := Observations(rows);
    forall o | o in obs ensures exists p :: p in PricesOf(prices, id) && Observe(p) == o {
      var i :| 0 <= i < |obs| && obs[i] == o;
      assert rows[i] in rows;
    }
    forall i, j | 0 <= i < j < |obs| ensures obs[i].ds <= obs[j].ds {
      assert Precedes(rows[i], rows[j], false);
    }
  }

  /** In the oldest-first query, a row older than a selected row is selected too. */
  lemma OldestKept(prices: seq<PriceRow>, id: StockId, days: nat)
    ensures var rows := Query(prices, id, false, days);
      forall p, i :: p in PricesOf(prices, id) && 0 <= i < |rows| && p.date < rows[i].date ==>
        Observe(p) in Observations(rows)
  {
    var rows := Query(prices, id, false, days);
    var obs := Observations(rows);
    forall p, i | p in PricesOf(prices, id) && 0 <= i < |rows| && p.date < rows[i].date
      ensures Observe(p) in obs
    {
      KeptWhenOlder(rows, PricesOf(prices, id), p, rows[i]);
      var j :| 0 <= j < |rows| && rows[j] == p;
      assert obs[j] == Observe(p);
    }
  }

  lemma KeptWhenOlder(rows: seq<PriceRow>, own: seq<PriceRow>, p: PriceRow, kept: PriceRow)
    requires forall a, b :: a in rows && b in own && b !in rows ==> Precedes(a, b, false)
    requires p in own && kept in rows && p.date < kept.date
    ensures p in rows
  {
  }

  function Select(row: ForecastRow): Prediction {
    Prediction(row.ds, row.yhat, row.yhatLower, row.yhatUpper)
  }

  function SelectAll(rows: seq<ForecastRow>): (r: seq<Prediction>)
    ensures |r| == |rows|
    ensures forall i :: 0 <= i < |rows| ==> r[i] == Select(rows[i])
  {
    if rows == [] then [] else [Select(rows[0])] + SelectAll(rows[1..])
  }

  /**
   * `forecast[['ds', 'yhat', 'yhat_lower', 'yhat_upper']].tail(periods)`: as
   * pandas' tail, the last `periods` rows, or all of them when there are fewer.
   */
  function LastPredictions(rows: seq<ForecastRow>, periods: nat): (r: seq<Prediction>)
    ensures |r| == Min(periods, |rows|)
    ensures forall i :: 0 <= i < |r| ==> r[i] == Select(rows[|rows| - |r| + i])
  {
    var k := Min(periods, |rows|);
    var r := SelectAll(rows[|rows| - k..]);
    assert forall i :: 0 <= i < k ==> r[i] == Select(rows[|rows| - k + i]) by {
      forall i | 0 <= i < k ensures r[i] == Select(rows[|rows| - k + i]) {
        assert rows[|rows| - k..][i] == rows[|rows| - k + i];
      }
    }
    r
  }

  class StockPredictor {
    var symbol: string
    var model: Option<FittedModel>

    /** A new predictor has no model. */
    constructor (symbol: string)
      ensures this.symbol == symbol && model == None
    {
      this.symbol := symbol;
      model := None;
    }

    /**
     * train: refuses a missing frame or one with fewer than ten rows and
     * leaves the model as it was; otherwise the model is fitted on the frame.
     */
    method Train(df: Option<seq<Observation>>) returns (r: TrainResult)
      modifies this`model
      ensures r.TrainFailed? <==> (df.None? || |df.value| < MinTrainingRows)
      ensures r.TrainFailed? ==> r.error == InsufficientData && model == old(model)
      ensures r.Trained? ==> model == Some(FittedModel(df.value))
    {
      if df.None? || |df.value| < MinTrainingRows {
        return TrainFailed(InsufficientData);
      }
      model := Some(FittedModel(df.value));
      r := Trained;
    }

    /**
     * predict: "Model not trained" without a model; otherwise the last
     * `periods` rows of the forecast, each reduced to its four columns.
     */
    function Predict(forecast: Forecaster, periods: nat): (r: PredictResult)
      reads this
      ensures r.PredictFailed? <==> model.None?
      ensures r.PredictFailed? ==> r.error == NotTrained
      ensures r.Predicted? ==> r.predictions == LastPredictions(forecast(model.value, periods), periods)
    {
      match model
      case None => PredictFailed(NotTrained)
      case Some(m) => Predicted(LastPredictions(forecast(m, periods), periods))
    }

    /** evaluate: no metrics without a model or a frame; otherwise the scorer's mae and rmse. */
    function Evaluate(df: Option<seq<Observation>>, score: Scorer): (r: Option<Metrics>)
      reads this
      ensures r.None? <==> (model.None? || df.None?)
      ensures r.Some? ==> r.value == score(model.value, df.value)
    {
      if model.None? || df.None? then None else Some(score(model.value, df.value))
    }

    /** save_model: writes the model, if there is one; `stored` is what the file then holds. */
    method SaveModel(file: Option<FittedModel>) returns (saved: bool, stored: Option<FittedModel>)
      ensures saved <==> model.Some?
      ensures stored == if saved then model else file
    {
      saved := model.Some?;
      stored := if saved then model else file;
    }

    /** load_model: takes the model from the file when the file exists, and otherwise leaves it. */
    method LoadModel(file: Option<FittedModel>) returns (loaded: bool)
      modifies this`model
      ensures loaded <==> file.Some?
      ensures model == if loaded then file else old(model)
    {
      loaded := file.Some?;
      if loaded {
        model := file;
      }
    }
  }
}
