/**
 * The stock data service: ingestion of a ticker's price history into the
 * tables (find-or-create the stock, insert the price rows not yet stored,
 * commit or roll back) and the "latest prices" query.
 */
module Services {
  import opened Wrappers
  import opened Text
  import opened Models

  /** The entries of the ticker's info record that ingestion reads; `None` when the key is missing. */
  datatype TickerInfo = TickerInfo(longName: Option<string>, sector: Option<string>)

  /** One row of the downloaded history, reduced to its calendar date. */
  datatype HistoryRow = HistoryRow(date: Date, open: real, high: real, low: real, close: real, volume: int)

  /** Where an exception interrupts ingestion, if anywhere. */
  datatype Fault =
    | NoFault
      /** raised while downloading the ticker info or history, before any table is read */
    | DownloadFault(message: string)
      /** raised by the commit of a newly created stock */
    | StockCommitFault(message: string)
      /** raised while history row `index` is being processed */
    | RowFault(index: nat, message: string)
      /** raised by the final commit of the price rows */
    | CommitFault(message: string)

  datatype FetchResponse = Fetched(stock: Stock) | FetchFailed(error: string)

  /** The tables after one ingestion, with what it answered. */
  datatype Ingested = Ingested(tables: Tables, response: FetchResponse)

  datatype PricesResponse = PricesResponse(stock: Stock, prices: seq<PriceRow>)

  const UnknownSector := "Unknown"

  /** The stock row created for a ticker seen for the first time. */
  function NewStock(id: StockId, symbol: string, info: TickerInfo): Stock {
    Stock(id, Upper(symbol),
          if info.longName.Some? then info.longName.value else symbol,
          if info.sector.Some? then info.sector.value else UnknownSector)
  }

  function PriceFrom(id: StockId, row: HistoryRow): PriceRow {
    PriceRow(id, row.date, row.open, row.high, row.low, row.close, row.volume)
  }

  /**
   * The price rows the loop over the history adds to the session, given the
   * committed rows `existing`: a row is added when neither the table nor an
   * earlier pending row already holds that stock and date.
   */
  function PendingRows(existing: seq<PriceRow>, id: StockId, history: seq<HistoryRow>): seq<PriceRow>
    decreases |history|
  {
    if history == [] then []
    else
      var pending := PendingRows(existing, id, history[..|history| - 1]);
      var row := history[|history| - 1];
      if HasPrice(existing + pending, id, row.date) then pending
      else pending + [PriceFrom(id, row)]
  }

  lemma HasPriceAppend(a: seq<PriceRow>, b: seq<PriceRow>, id: StockId, date: Date)
    requires HasPrice(a, id, date)
    ensures HasPrice(a + b, id, date)
  {
    var i :| 0 <= i < |a| && a[i].stockId == id && a[i].date == date;
    assert (a + b)[i] == a[i];
  }

  lemma AppendNewKey(rows: seq<PriceRow>, p: PriceRow)
    requires UniquePriceKeys(rows) && !HasPrice(rows, p.stockId, p.date)
    ensures UniquePriceKeys(rows + [p])
  {
    var all := rows + [p];
    forall i, j | 0 <= i < j < |all|
      ensures !(all[i].stockId == all[j].stockId && all[i].date == all[j].date)
    {
      if j == |rows| {
        assert all[i] == rows[i];
      } else {
        assert all[i] == rows[i] && all[j] == rows[j];
      }
    }
  }

  /** The pending rows all belong to the stock and never repeat a key already stored or pending. */
  lemma {:induction false} PendingRowsKeepKeysUnique(existing: seq<PriceRow>, id: StockId, history: seq<HistoryRow>)
    requires UniquePriceKeys(existing)
    ensures UniquePriceKeys(existing + PendingRows(existing, id, history))
    ensures forall p :: p in PendingRows(existing, id, history) ==> p.stockId == id
    decreases |history|
  {
    if history != [] {
      var pending := PendingRows(existing, id, history[..|history| - 1]);
      PendingRowsKeepKeysUnique(existing, id, history[..|history| - 1]);
      var row := history[|history| - 1];
      if !HasPrice(existing + pending, id, row.date) {
        AppendNewKey(existing + pending, PriceFrom(id, row));
        assert existing + (pending + [PriceFrom(id, row)]) == existing + pending + [PriceFrom(id, row)];
      }
    }
  }

  /** After the loop, every date of the history has a row of the stock. */
  lemma {:induction false} PendingRowsCoverHistory(existing: seq<PriceRow>, id: StockId, history: seq<HistoryRow>)
    ensures forall k :: 0 <= k < |history| ==> HasPrice(existing + PendingRows(existing, id, history), id, history[k].date)
    decreases |history|
  {
    if history != [] {
      var init := history[..|history| - 1];
      var pending := PendingRows(existing, id, init);
      PendingRowsCoverHistory(existing, id, init);
      var all := PendingRows(existing, id, history);
      var extra := all[|pending|..];
      assert all == pending + extra;
      assert existing + all == (existing + pending) + extra;
      forall k | 0 <= k < |history| ensures HasPrice(existing + all, id, history[k].date) {
        if k < |history| - 1 {
          assert history[k] == init[k];
          HasPriceAppend(existing + pending, extra, id, history[k].date);
        } else if HasPrice(existing + pending, id, history[k].date) {
          HasPriceAppend(existing + pending, extra, id, history[k].date);
        } else {
          assert (existing + all)[|existing + all| - 1] == PriceFrom(id, history[k]);
        }
      }
    }
  }

  /** Every staged row is the price row of one of the history's rows. */
  lemma {:induction false} PendingFromHistory(existing: seq<PriceRow>, id: StockId, history: seq<HistoryRow>)
    ensures forall p :: p in PendingRows(existing, id, history) ==> exists h :: h in history && p == PriceFrom(id, h)
    decreases |history|
  {
    if history != [] {
      var init := history[..|history| - 1];
      PendingFromHistory(existing, id, init);
      forall p | p in PendingRows(existing, id, history) ensures exists h :: h in history && p == PriceFrom(id, h) {
        if p in PendingRows(existing, id, init) {
          var h :| h in init && p == PriceFrom(id, h);
          assert h in history;
        } else {
          assert history[|history| - 1] in history;
        }
      }
    }
  }

  /** When every date of the history is already stored for the stock, ingestion adds nothing. */
  lemma {:induction false} PendingRowsNoneWhenCovered(existing: seq<PriceRow>, id: StockId, history: seq<HistoryRow>)
    requires forall k :: 0 <= k < |history| ==> HasPrice(existing, id, history[k].date)
    ensures PendingRows(existing, id, history) == []
    decreases |history|
  {
    if history != [] {
      var init := history[..|history| - 1];
      forall k | 0 <= k < |init| ensures HasPrice(existing, id, init[k].date) {
        assert init[k] == history[k];
      }
      PendingRowsNoneWhenCovered(existing, id, init);
      assert existing + [] == existing;
    }
  }

  /** An exception interrupts ingestion of `symbol` with `history` under `fault`. */
  predicate Raises(t: Tables, symbol: string, history: seq<HistoryRow>, fault: Fault) {
    || fault.DownloadFault?
    || (fault.StockCommitFault? && FindBySymbol(t.stocks, Upper(symbol)).None?)
    || (fault.RowFault? && fault.index < |history|)
    || fault.CommitFault?
  }

  /**
   * fetch_stock_data as a function of the tables: download (`info`,
   * `history` and `fault` stand for what the ticker service returns or
   * raises), find or create and commit the stock, stage the new price rows,
   * commit them; an exception rolls back what is not yet committed.
   */
  function Ingest(t: Tables, symbol: string, info: TickerInfo, history: seq<HistoryRow>, fault: Fault): Ingested {
    if fault.DownloadFault? then Ingested(t, FetchFailed(fault.message))
    else
      match FindBySymbol(t.stocks, Upper(symbol))
      case None =>
        if fault.StockCommitFault? then Ingested(t, FetchFailed(fault.message))
        else
          var s := NewStock(t.nextId, symbol, info);
          StorePrices(Tables(t.stocks + [s], t.prices, t.nextId + 1), s, history, fault)
      case Some(s) => StorePrices(t, s, history, fault)
  }

  /** The price-row half of ingestion, once the stock `s` is committed. */
  function StorePrices(t: Tables, s: Stock, history: seq<HistoryRow>, fault: Fault): Ingested {
    if (fault.RowFault? && fault.index < |history|) || fault.CommitFault? then
      Ingested(t, FetchFailed(fault.message))
    else
      Ingested(t.(prices := t.prices + PendingRows(t.prices, s.id, history)), Fetched(s))
  }

  /** Ingestion keeps both tables consistent: one stock per symbol, one price per stock and date. */
  lemma IngestKeepsConsistent(t: Tables, symbol: string, info: TickerInfo, history: seq<HistoryRow>, fault: Fault)
    requires Consistent(t)
    ensures Consistent(Ingest(t, symbol, info, history, fault).tables)
  {
    if !fault.DownloadFault? {
      var found := FindBySymbol(t.stocks, Upper(symbol));
      if found.None? {
        if !fault.StockCommitFault? {
          var s := NewStock(t.nextId, symbol, info);
          AddStockKeepsConsistent(t, s);
          StorePricesKeepsConsistent(Tables(t.stocks + [s], t.prices, t.nextId + 1), s, history, fault);
        }
      } else {
        assert found.value in t.stocks;
        StorePricesKeepsConsistent(t, found.value, history, fault);
      }
    }
  }

  /** Appending a stock under a new symbol with the next identifier keeps the tables consistent. */
  lemma AddStockKeepsConsistent(t: Tables, s: Stock)
    requires Consistent(t) && s.id == t.nextId && FindBySymbol(t.stocks, s.symbol).None?
    ensures Consistent(Tables(t.stocks + [s], t.prices, t.nextId + 1))
  {
    var u := Tables(t.stocks + [s], t.prices, t.nextId + 1);
    assert u.stocks[|t.stocks|] == s;
    forall i | 0 <= i < |u.prices| ensures HasStock(u.stocks, u.prices[i].stockId) {
      var j :| 0 <= j < |t.stocks| && t.stocks[j].id == t.prices[i].stockId;
      assert u.stocks[j] == t.stocks[j];
    }
  }

  /** Storing the new price rows of a stock of the table keeps the tables consistent. */
  lemma StorePricesKeepsConsistent(u: Tables, s: Stock, history: seq<HistoryRow>, fault: Fault)
    requires Consistent(u) && s in u.stocks
    ensures Consistent(StorePrices(u, s, history, fault).tables)
  {
    assert HasStock(u.stocks, s.id) by {
      var j :| 0 <= j < |u.stocks| && u.stocks[j] == s;
    }
    PendingRowsKeepKeysUnique(u.prices, s.id, history);
    var pending := PendingRows(u.prices, s.id, history);
    var v := u.(prices := u.prices + pending);
    forall i | 0 <= i < |v.prices| ensures HasStock(v.stocks, v.prices[i].stockId) {
      if i >= |u.prices| {
        assert v.prices[i] == pending[i - |u.prices|];
      } else {
        assert v.prices[i] == u.prices[i];
      }
    }
  }

  /** Whether ingestion fails, and that a failure leaves the price table as it was, with the exception's text as error. */
  lemma IngestFailure(t: Tables, symbol: string, info: TickerInfo, history: seq<HistoryRow>, fault: Fault)
    ensures var r := Ingest(t, symbol, info, history, fault);
      && (r.response.FetchFailed? <==> Raises(t, symbol, history, fault))
      && (r.response.FetchFailed? ==> r.response.error == fault.message && r.tables.prices == t.prices)
      && (fault.DownloadFault? ==> r.tables == t)
  {
  }

  /**
   * A stock created before the exception stays: its commit came first, and
   * the rollback only drops the pending price rows.
   */
  lemma CommittedStockSurvivesRollback(t: Tables, symbol: string, info: TickerInfo, history: seq<HistoryRow>, fault: Fault)
    requires FindBySymbol(t.stocks, Upper(symbol)).None?
    requires (fault.RowFault? && fault.index < |history|) || fault.CommitFault?
    ensures Ingest(t, symbol, info, history, fault).tables
         == Tables(t.stocks + [NewStock(t.nextId, symbol, info)], t.prices, t.nextId + 1)
  {
  }

  /**
   * A successful ingestion answers with the stock stored under the
   * upper-cased symbol, which is the row already there (never updated) or a
   * new row named after the ticker's long name (else the symbol as given)
   * in its sector (else "Unknown"); afterwards every history date has a price
   * row for that stock, and all rows that were there before are unchanged and
   * in place.
   */
  lemma {:induction false} IngestSuccess(t: Tables, symbol: string, info: TickerInfo, history: seq<HistoryRow>, fault: Fault)
    requires !Raises(t, symbol, history, fault)
    ensures var r := Ingest(t, symbol, info, history, fault);
      && r.response.Fetched?
      && r.response.stock.symbol == Upper(symbol)
      && FindBySymbol(r.tables.stocks, Upper(symbol)) == Some(r.response.stock)
      && (FindBySymbol(t.stocks, Upper(symbol)).Some? ==>
            && r.response.stock == FindBySymbol(t.stocks, Upper(symbol)).value
            && r.tables.stocks == t.stocks)
      && (FindBySymbol(t.stocks, Upper(symbol)).None? ==>
            && r.tables.stocks == t.stocks + [r.response.stock]
            && r.response.stock.id == t.nextId
            && r.response.stock.name == (if info.longName.Some? then info.longName.value else symbol)
            && r.response.stock.sector == (if info.sector.Some? then info.sector.value else UnknownSector))
      && |t.prices| <= |r.tables.prices| && r.tables.prices[..|t.prices|] == t.prices
      && (forall k :: 0 <= k < |history| ==> HasPrice(r.tables.prices, r.response.stock.id, history[k].date))
      && forall p :: p in r.tables.prices[|t.prices|..] ==> exists h :: h in history && p == PriceFrom(r.response.stock.id, h)
  {
    var r := Ingest(t, symbol, info, history, fault);
    var key := Upper(symbol);
    var found := FindBySymbol(t.stocks, key);
    var s := r.response.stock;
    var stocks := if found.Some? then t.stocks else t.stocks + [s];
    assert r.tables.stocks == stocks;
    if found.None? {
      FindAfterAppend(t.stocks, s, key);
    }
    PendingRowsCoverHistory(t.prices, s.id, history);
    PendingFromHistory(t.prices, s.id, history);
    assert r.tables.prices == t.prices + PendingRows(t.prices, s.id, history);
    assert r.tables.prices[|t.prices|..] == PendingRows(t.prices, s.id, history);
  }

  lemma {:induction false} FindAfterAppend(stocks: seq<Stock>, s: Stock, key: string)
    requires FindBySymbol(stocks, key).None? && s.symbol == key
    ensures FindBySymbol(stocks + [s], key) == Some(s)
  {
    if stocks != [] {
      assert (stocks + [s])[1..] == stocks[1..] + [s];
      FindAfterAppend(stocks[1..], s, key);
    }
  }

  /** Ingestion adds price rows only for the ingested stock: the prices of every other stock are untouched. */
  lemma IngestLeavesOtherStocks(t: Tables, symbol: string, info: TickerInfo, history: seq<HistoryRow>, fault: Fault, other: StockId)
    requires Consistent(t)
    requires var r := Ingest(t, symbol, info, history, fault); r.response.FetchFailed? || r.response.stock.id != other
    ensures PricesOf(Ingest(t, symbol, info, history, fault).tables.prices, other) == PricesOf(t.prices, other)
  {
    var r := Ingest(t, symbol, info, history, fault);
    if r.response.Fetched? {
      var s := r.response.stock;
      var pending := PendingRows(t.prices, s.id, history);
      PendingRowsKeepKeysUnique(t.prices, s.id, history);
      PricesOfAppend(t.prices, pending, other);
      NoneOfOther(pending, s.id, other);
    }
  }

  lemma {:induction false} NoneOfOther(rows: seq<PriceRow>, id: StockId, other: StockId)
    requires id != other && forall p :: p in rows ==> p.stockId == id
    ensures PricesOf(rows, other) == []
  {
    if rows != [] {
      assert rows[0] in rows;
      NoneOfOther(rows[1..], id, other);
    }
  }

  /**
   * Ingestion is idempotent: running it again for the same symbol and
   * history, whatever the ticker info says this time, adds no stock and no
   * price row.
   */
  lemma IngestIdempotent(t: Tables, symbol: string, info: TickerInfo, info': TickerInfo, history: seq<HistoryRow>)
    requires Consistent(t)
    ensures var once := Ingest(t, symbol, info, history, NoFault).tables;
      Ingest(once, symbol, info', history, NoFault).tables == once
  {
    var r := Ingest(t, symbol, info, history, NoFault);
    IngestSuccess(t, symbol, info, history, NoFault);
    var s := r.response.stock;
    var once := r.tables;
    assert FindBySymbol(once.stocks, Upper(symbol)) == Some(s);
    PendingRowsNoneWhenCovered(once.prices, s.id, history);
    assert once.prices + [] == once.prices;
  }

  /**
   * get_stock_prices: `None` for a symbol with no stock row; otherwise the
   * stock and at most `limit` of its price rows, newest first, and no row of
   * that stock left out is newer than one returned.
   */
  function GetStockPrices(t: Tables, symbol: string, limit: nat): (r: Option<PricesResponse>)
    ensures r.None? <==> FindBySymbol(t.stocks, Upper(symbol)).None?
    ensures r.Some? ==> r.value.stock.symbol == Upper(symbol) && r.value.stock in t.stocks
    ensures r.Some? ==>
      var own := PricesOf(t.prices, r.value.stock.id);
      && |r.value.prices| == Min(limit, |own|)
      && (forall p :: p in r.value.prices ==> p in own)
      && multiset(r.value.prices) <= multiset(own)
      && OrderedBy(r.value.prices, true)
      && forall p, q :: p in r.value.prices && q in own && q.date > p.date ==> q in r.value.prices
  {
    match FindBySymbol(t.stocks, Upper(symbol))
    case None => None
    case Some(stock) =>
      var rows := Query(t.prices, stock.id, true, limit);
      NewestKept(t.prices, stock.id, limit);
      Some(PricesResponse(stock, rows))
  }

  /** In the newest-first query, a row newer than a returned row is returned too. */
  lemma NewestKept(prices: seq<PriceRow>, id: StockId, limit: nat)
    ensures var rows := Query(prices, id, true, limit);
      forall p, q :: p in rows && q in PricesOf(prices, id) && q.date > p.date ==> q in rows
  {
    var rows := Query(prices, id, true, limit);
    forall p, q | p in rows && q in PricesOf(prices, id) && q !in rows ensures q.date <= p.date {
      assert Precedes(p, q, true);
    }
  }

  /**
   * The loop over the history rows: stages each row whose (stock, date) is
   * neither committed in `existing` nor already staged; `raised` when the
   * fault strikes at one of the rows, and the staged rows are then dropped.
   */
  method StagePrices(existing: seq<PriceRow>, id: StockId, history: seq<HistoryRow>, fault: Fault)
    returns (pending: seq<PriceRow>, raised: bool)
    ensures raised == (fault.RowFault? && fault.index < |history|)
    ensures !raised ==> pending == PendingRows(existing, id, history)
  {
    pending := [];
    var i := 0;
    while i < |history|
      invariant 0 <= i <= |history|
      invariant !(fault.RowFault? && fault.index < i)
      invariant pending == PendingRows(existing, id, history[..i])
    {
      if fault.RowFault? && fault.index == i {
        return [], true;
      }
      assert history[..i + 1][..i] == history[..i];
      if !HasPrice(existing + pending, id, history[i].date) {
        pending := pending + [PriceFrom(id, history[i])];
      }
      i := i + 1;
    }
    assert history[..|history|] == history;
    raised := false;
  }

  /** The database session: the committed tables, which ingestion updates in place. */
  class Database {
    var stocks: seq<Stock>
    var prices: seq<PriceRow>
    var nextId: StockId

    function Snapshot(): Tables
      reads this
    {
      Tables(stocks, prices, nextId)
    }

    ghost predicate Valid()
      reads this
    {
      Consistent(Snapshot())
    }

    /** Empty tables; identifiers start at 1. */
    constructor ()
      ensures Valid()
      ensures stocks == [] && prices == [] && nextId == 1
    {
      stocks, prices, nextId := [], [], 1;
    }

    /** fetch_stock_data(symbol): the ticker's `info` and `history`, and where it raises, are parameters. */
    method FetchStockData(symbol: string, info: TickerInfo, history: seq<HistoryRow>, fault: Fault) returns (r: FetchResponse)
      requires Valid()
      modifies this
      ensures Ingest(old(Snapshot()), symbol, info, history, fault) == Ingested(Snapshot(), r)
      ensures Valid()
    {
      ghost var expected := Ingest(Snapshot(), symbol, info, history, fault);
      IngestKeepsConsistent(Snapshot(), symbol, info, history, fault);
      if fault.DownloadFault? {
        r := FetchFailed(fault.message);
      } else {
        var found := FindBySymbol(stocks, Upper(symbol));
        if found.None? && fault.StockCommitFault? {
          r := FetchFailed(fault.message);
        } else {
          var stock: Stock;
          if found.None? {
            stock := NewStock(nextId, symbol, info);
            stocks := stocks + [stock];
            nextId := nextId + 1;
          } else {
            stock := found.value;
          }
          assert expected == StorePrices(Snapshot(), stock, history, fault);
          var pending, raised := StagePrices(prices, stock.id, history, fault);
          if raised || fault.CommitFault? {
            r := FetchFailed(fault.message);
          } else {
            prices := prices + pending;
            r := Fetched(stock);
          }
        }
      }
      assert expected == Ingested(Snapshot(), r);
    }
  }
}
