/**
 * The two database tables the backend reads and writes, as in-memory rows:
 * the stock table (one row per ticker) and the price table (one row per
 * stock and trading day), with the lookups and the
 * "filter by stock, order by date, limit n" query that the services build on.
 */
module Models {
  import opened Wrappers

  type StockId = nat

  /** A calendar date, as a day number. */
  type Date = int

  datatype Stock = Stock(id: StockId, symbol: string, name: string, sector: string)

  datatype PriceRow = PriceRow(
    stockId: StockId, date: Date,
    openPrice: real, highPrice: real, lowPrice: real, closePrice: real, volume: int)

  /** Both tables, with the next identifier the stock table will hand out. */
  datatype Tables = Tables(stocks: seq<Stock>, prices: seq<PriceRow>, nextId: StockId)

  /** `Stock.query.filter_by(symbol=...).first()`. */
  function FindBySymbol(stocks: seq<Stock>, symbol: string): (r: Option<Stock>)
    ensures r.None? <==> forall i :: 0 <= i < |stocks| ==> stocks[i].symbol != symbol
    ensures r.Some? ==> r.value in stocks && r.value.symbol == symbol
  {
    if stocks == [] then None
    else if stocks[0].symbol == symbol then Some(stocks[0])
    else FindBySymbol(stocks[1..], symbol)
  }

  /** Some price row of the stock is dated `date`. */
  predicate HasPrice(prices: seq<PriceRow>, id: StockId, date: Date) {
    exists i :: 0 <= i < |prices| && prices[i].stockId == id && prices[i].date == date
  }

  predicate HasStock(stocks: seq<Stock>, id: StockId) {
    exists i :: 0 <= i < |stocks| && stocks[i].id == id
  }

  ghost predicate UniqueSymbols(stocks: seq<Stock>) {
    forall i, j :: 0 <= i < j < |stocks| ==> stocks[i].symbol != stocks[j].symbol
  }

  ghost predicate UniqueIds(stocks: seq<Stock>) {
    forall i, j :: 0 <= i < j < |stocks| ==> stocks[i].id != stocks[j].id
  }

  ghost predicate IdsBelow(stocks: seq<Stock>, bound: StockId) {
    forall i :: 0 <= i < |stocks| ==> stocks[i].id < bound
  }

  /** No two price rows share the key (stock, date). */
  ghost predicate UniquePriceKeys(prices: seq<PriceRow>) {
    forall i, j :: 0 <= i < j < |prices| ==>
      !(prices[i].stockId == prices[j].stockId && prices[i].date == prices[j].date)
  }

  /** Every price row belongs to a stock of the stock table. */
  ghost predicate PricesReferenceStocks(t: Tables) {
    forall i :: 0 <= i < |t.prices| ==> HasStock(t.stocks, t.prices[i].stockId)
  }

  /** The integrity the ingestion service keeps. */
  ghost predicate Consistent(t: Tables) {
    && UniqueSymbols(t.stocks)
    && UniqueIds(t.stocks)
    && IdsBelow(t.stocks, t.nextId)
    && UniquePriceKeys(t.prices)
    && PricesReferenceStocks(t)
  }

  /** The price rows of one stock, in table order (`StockPrice.query.filter_by(stock_id=...)`). */
  function PricesOf(prices: seq<PriceRow>, id: StockId): (r: seq<PriceRow>)
    ensures forall p :: p in r <==> p in prices && p.stockId == id
    ensures |r| <= |prices|
  {
    if prices == [] then []
    else (if prices[0].stockId == id then [prices[0]] else []) + PricesOf(prices[1..], id)
  }

  lemma {:induction false} PricesOfAppend(a: seq<PriceRow>, b: seq<PriceRow>, id: StockId)
    ensures PricesOf(a + b, id) == PricesOf(a, id) + PricesOf(b, id)
  {
    if a != [] {
      assert (a + b)[1..] == a[1..] + b;
      PricesOfAppend(a[1..], b, id);
    } else {
      assert a + b == b;
    }
  }

  /** `a` may stand before `b` in the ordering `order_by(date.desc())` (newest first) or `order_by(date.asc())`. */
  predicate Precedes(a: PriceRow, b: PriceRow, newestFirst: bool) {
    if newestFirst then a.date >= b.date else a.date <= b.date
  }

  ghost predicate OrderedBy(s: seq<PriceRow>, newestFirst: bool) {
    forall i, j :: 0 <= i < j < |s| ==> Precedes(s[i], s[j], newestFirst)
  }

  /** Putting `x` in front keeps the order when `x` may precede every row. */
  lemma PrependOrdered(x: PriceRow, s: seq<PriceRow>, newestFirst: bool)
    requires OrderedBy(s, newestFirst)
    requires forall y :: y in s ==> Precedes(x, y, newestFirst)
    ensures OrderedBy([x] + s, newestFirst)
  {
    var r := [x] + s;
    forall i, j | 0 <= i < j < |r| ensures Precedes(r[i], r[j], newestFirst) {
      if i > 0 {
        assert r[i] == s[i - 1] && r[j] == s[j - 1];
      } else {
        assert r[j] in s;
      }
    }
  }

  function Insert(x: PriceRow, s: seq<PriceRow>, newestFirst: bool): (r: seq<PriceRow>)
    requires OrderedBy(s, newestFirst)
    ensures OrderedBy(r, newestFirst)
    ensures multiset(r) == multiset(s) + multiset{x}
  {
    if s == [] then [x]
    else if Precedes(x, s[0], newestFirst) then
      assert forall y :: y in s ==> Precedes(x, y, newestFirst) by {
        forall y | y in s ensures Precedes(x, y, newestFirst) {
          var j :| 0 <= j < |s| && s[j] == y;
          if j > 0 { assert Precedes(s[0], s[j], newestFirst); }
        }
      }
      PrependOrdered(x, s, newestFirst);
      [x] + s
    else
      var rest := Insert(x, s[1..], newestFirst);
      assert s == [s[0]] + s[1..];
      assert forall y :: y in rest ==> Precedes(s[0], y, newestFirst) by {
        forall y | y in rest ensures Precedes(s[0], y, newestFirst) {
          assert y in multiset(rest);
          if y != x {
            var j :| 0 <= j < |s[1..]| && s[1..][j] == y;
            assert y == s[j + 1];
          }
        }
      }
      PrependOrdered(s[0], rest, newestFirst);
      [s[0]] + rest
  }

  /** The rows sorted by date in the requested direction. */
  function SortByDate(s: seq<PriceRow>, newestFirst: bool): (r: seq<PriceRow>)
    ensures OrderedBy(r, newestFirst)
    ensures multiset(r) == multiset(s)
  {
    if s == [] then []
    else
      assert s == [s[0]] + s[1..];
      Insert(s[0], SortByDate(s[1..], newestFirst), newestFirst)
  }

  /**
   * `StockPrice.query.filter_by(stock_id=id).order_by(date).limit(limit)`:
   * the first `limit` rows of the stock in the requested date order. Every
   * row of the stock that is left out comes after every row that is kept.
   */
  function Query(prices: seq<PriceRow>, id: StockId, newestFirst: bool, limit: nat): (r: seq<PriceRow>)
    ensures |r| == Min(limit, |PricesOf(prices, id)|)
    ensures OrderedBy(r, newestFirst)
    ensures forall p :: p in r ==> p in prices && p.stockId == id
    ensures forall p, q :: p in r && q in PricesOf(prices, id) && q !in r ==> Precedes(p, q, newestFirst)
    ensures multiset(r) <= multiset(PricesOf(prices, id))
  {
    var all := PricesOf(prices, id);
    var sorted := SortByDate(all, newestFirst);
    PrefixOfSorted(all, sorted, Min(limit, |all|), newestFirst);
    sorted[..Min(limit, |all|)]
  }

  /** A prefix of a sorted permutation of `all` holds rows of `all` that precede every row it leaves out. */
  lemma PrefixOfSorted(all: seq<PriceRow>, sorted: seq<PriceRow>, k: nat, newestFirst: bool)
    requires OrderedBy(sorted, newestFirst) && multiset(sorted) == multiset(all)
    requires k <= |all|
    ensures |sorted| == |all| && OrderedBy(sorted[..k], newestFirst)
    ensures forall p :: p in sorted[..k] ==> p in all
    ensures forall p, q :: p in sorted[..k] && q in all && q !in sorted[..k] ==> Precedes(p, q, newestFirst)
    ensures multiset(sorted[..k]) <= multiset(all)
  {
    assert |sorted| == |all| by {
      assert |multiset(sorted)| == |multiset(all)|;
    }
    var r := sorted[..k];
    forall p | p in r ensures p in all {
      assert p in multiset(sorted);
    }
    forall p, q | p in r && q in all && q !in r ensures Precedes(p, q, newestFirst) {
      assert q in multiset(sorted);
      var i :| 0 <= i < k && r[i] == p;
      var j :| 0 <= j < |sorted| && sorted[j] == q;
      assert j >= k;
      assert sorted[i] == p;
    }
    assert sorted == r + sorted[k..];
    assert multiset(sorted) == multiset(r) + multiset(sorted[k..]);
  }
}
