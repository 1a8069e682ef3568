/**
 * The portfolio view: an ordered list of distinct ticker symbols that the
 * user grows and shrinks, and the optimize request with its loading, error
 * and result state. The optimization call is a parameter: how it settles.
 */
module Portfolio {
  import opened Wrappers
  import opened Text

  datatype Allocation = Allocation(symbol: string, percent: real)

  datatype OptimalPortfolio = OptimalPortfolio(
    allocations: seq<Allocation>, expectedReturn: real, volatility: real, sharpeRatio: real)

  /** One candidate portfolio of the efficient-frontier scatter plot. */
  datatype FrontierPoint = FrontierPoint(volatility: real, ret: real, sharpe: real)

  /** The optimizer's answer; `efficientFrontier` is `None` when the payload lacks it. */
  datatype OptimizeResult = OptimizeResult(optimalPortfolio: OptimalPortfolio, efficientFrontier: Option<seq<FrontierPoint>>)

  /**
   * How the optimization call settles: with the payload, or by throwing,
   * carrying the `error` field of the HTTP error response if there was one.
   */
  datatype OptimizeOutcome = Resolved(data: OptimizeResult) | Rejected(responseError: Option<string>)

  datatype OptimizeRequest = OptimizeRequest(symbols: seq<string>, period: string)

  const InitialSymbols: seq<string> := ["AAPL", "GOOGL", "MSFT"]
  const MinSymbols: nat := 2
  const TooFewSymbols := "Add at least 2 stocks"
  const OptimizationFailed := "Optimization failed"
  const OptimizePeriod := "1y"

  /**
   * The settled call of the client module as shipped: it has no optimize
   * operation, so invoking it throws a TypeError, which carries no HTTP response.
   */
  const ShippedClientOutcome: OptimizeOutcome := Rejected(None)

  ghost predicate NoDuplicates(s: seq<string>) {
    forall i, j :: 0 <= i < j < |s| ==> s[i] != s[j]
  }

  lemma InitialSymbolsDistinct()
    ensures NoDuplicates(InitialSymbols) && |InitialSymbols| == 3
  {
    assert InitialSymbols[0][0] == 'A' && InitialSymbols[1][0] == 'G' && InitialSymbols[2][0] == 'M';
  }

  /** The entry `addSymbol` derives from the input: trimmed, then upper-cased. */
  function Normalize(input: string): (n: string)
    ensures IsTrimmed(n)
    ensures forall i :: 0 <= i < |n| ==> !IsLowerAscii(n[i])
    ensures n == "" <==> forall i :: 0 <= i < |input| ==> IsWhitespace(input[i])
    ensures |n| == |Trim(input)| && forall i :: 0 <= i < |n| ==> n[i] == UpperChar(Trim(input)[i])
  {
    var t := Trim(input);
    UpperKeepsTrimmed(t);
    Upper(t)
  }

  /** Normalizing a normalized entry gives it back. */
  lemma NormalizeIdempotent(input: string)
    ensures Normalize(Normalize(input)) == Normalize(input)
  {
    var t := Trim(input);
    UpperKeepsTrimmed(t);
    assert Trim(Upper(t)) == Upper(t);
  }

  /** The list `addSymbol` leaves: the normalized input appended when it is non-empty and not yet listed. */
  function WithSymbol(symbols: seq<string>, input: string): (r: seq<string>)
    ensures |symbols| <= |r| <= |symbols| + 1
    ensures r[..|symbols|] == symbols
    ensures |r| == |symbols| + 1 <==> (Normalize(input) != "" && Normalize(input) !in symbols)
    ensures |r| == |symbols| + 1 ==> r[|symbols|] == Normalize(input)
    ensures NoDuplicates(symbols) ==> NoDuplicates(r)
  {
    var entry := Normalize(input);
    if entry != "" && entry !in symbols then symbols + [entry] else symbols
  }

  /** The list `removeSymbol` leaves: `symbols.filter(s => s !== symbol)`. */
  function Without(symbols: seq<string>, symbol: string): (r: seq<string>)
    ensures symbol !in r
    ensures forall s :: s in r <==> s in symbols && s != symbol
    ensures |r| <= |symbols|
  {
    if symbols == [] then []
    else (if symbols[0] == symbol then [] else [symbols[0]]) + Without(symbols[1..], symbol)
  }

  /** Removal distributes over concatenation, so the entries kept stay in their relative order. */
  lemma {:induction false} WithoutAppend(a: seq<string>, b: seq<string>, symbol: string)
    ensures Without(a + b, symbol) == Without(a, symbol) + Without(b, symbol)
  {
    if a == [] {
      assert a + b == b;
    } else {
      assert (a + b)[1..] == a[1..] + b;
      WithoutAppend(a[1..], b, symbol);
    }
  }

  /** Removing a symbol that is not listed changes nothing. */
  lemma {:induction false} WithoutAbsent(symbols: seq<string>, symbol: string)
    requires symbol !in symbols
    ensures Without(symbols, symbol) == symbols
  {
    if symbols != [] {
      assert symbols[0] != symbol;
      WithoutAbsent(symbols[1..], symbol);
    }
  }

  /** Removing twice is removing once. */
  lemma WithoutIdempotent(symbols: seq<string>, symbol: string)
    ensures Without(Without(symbols, symbol), symbol) == Without(symbols, symbol)
  {
    WithoutAbsent(Without(symbols, symbol), symbol);
  }

  /** Removal keeps the list free of duplicates. */
  lemma {:induction false} WithoutKeepsDistinct(symbols: seq<string>, symbol: string)
    requires NoDuplicates(symbols)
    ensures NoDuplicates(Without(symbols, symbol))
  {
    if symbols != [] {
      var rest := Without(symbols[1..], symbol);
      assert NoDuplicates(symbols[1..]) by {
        forall i, j | 0 <= i < j < |symbols[1..]| ensures symbols[1..][i] != symbols[1..][j] {
          assert symbols[1..][i] == symbols[i + 1] && symbols[1..][j] == symbols[j + 1];
        }
      }
      WithoutKeepsDistinct(symbols[1..], symbol);
      if symbols[0] != symbol {
        assert symbols[0] !in symbols[1..];
        assert symbols[0] !in rest;
        var r := [symbols[0]] + rest;
        forall i, j | 0 <= i < j < |r| ensures r[i] != r[j] {
          if i == 0 {
            assert r[j] in rest;
          } else {
            assert r[i] == rest[i - 1] && r[j] == rest[j - 1];
          }
        }
      }
    }
  }

  /** The message shown when the call throws: the response's error if it is a non-empty string, else the fallback. */
  function FailureMessage(responseError: Option<string>): (m: string)
    ensures m != ""
    ensures responseError.Some? && responseError.value != "" ==> m == responseError.value
    ensures (responseError.None? || responseError.value == "") ==> m == OptimizationFailed
  {
    if responseError.Some? && responseError.value != "" then responseError.value else OptimizationFailed
  }

  /** `result?.efficient_frontier || []`. */
  function ChartData(result: Option<OptimizeResult>): (points: seq<FrontierPoint>)
    ensures result.None? ==> points == []
    ensures result.Some? && result.value.efficientFrontier.Some? ==> points == result.value.efficientFrontier.value
    ensures result.Some? && result.value.efficientFrontier.None? ==> points == []
  {
    match result
    case None => []
    case Some(data) => if data.efficientFrontier.Some? then data.efficientFrontier.value else []
  }

  class PortfolioOptimizer {
    var symbolInput: string
    var symbols: seq<string>
    var loading: bool
    var error: Option<string>
    var result: Option<OptimizeResult>

    ghost predicate Valid()
      reads this
    {
      NoDuplicates(symbols)
    }

    constructor ()
      ensures Valid()
      ensures symbolInput == "" && symbols == InitialSymbols
      ensures !loading && error == None && result == None
    {
      symbolInput := "";
      symbols := InitialSymbols;
      loading := false;
      error := None;
      result := None;
      InitialSymbolsDistinct();
    }

    /** The text field's change handler stores the typed text upper-cased. */
    method TypeSymbol(typed: string)
      modifies this`symbolInput
      ensures symbolInput == Upper(typed)
    {
      symbolInput := Upper(typed);
    }

    /**
     * The "Add Stock" button is disabled while the trimmed input is empty,
     * so it is enabled exactly when addSymbol has a non-empty entry to add.
     */
    function CanAdd(): (enabled: bool)
      reads this
      ensures enabled <==> Normalize(symbolInput) != ""
    {
      Trim(symbolInput) != ""
    }

    /** The "Optimize Portfolio" button is disabled while loading or with fewer than two symbols. */
    predicate CanOptimize()
      reads this
    {
      !loading && |symbols| >= MinSymbols
    }

    /**
     * addSymbol: appends the normalized input and clears the field when it
     * is non-empty and not yet listed; otherwise changes nothing, not even
     * the field.
     */
    method AddSymbol() returns (added: bool)
      requires Valid()
      modifies this`symbols, this`symbolInput
      ensures Valid()
      ensures added <==> Normalize(old(symbolInput)) != "" && Normalize(old(symbolInput)) !in old(symbols)
      ensures symbols == WithSymbol(old(symbols), old(symbolInput))
      ensures symbolInput == if added then "" else old(symbolInput)
    {
      var trimmed := Normalize(symbolInput);
      added := trimmed != "" && trimmed !in symbols;
      ghost var next := WithSymbol(symbols, symbolInput);
      assert next == if added then symbols + [trimmed] else symbols;
      if added {
        symbols := symbols + [trimmed];
        symbolInput := "";
      }
    }

    /** removeSymbol: drops every occurrence of `symbol`, keeping the others in order. */
    method RemoveSymbol(symbol: string)
      requires Valid()
      modifies this`symbols
      ensures Valid()
      ensures symbols == Without(old(symbols), symbol)
    {
      WithoutKeepsDistinct(symbols, symbol);
      symbols := Without(symbols, symbol);
    }

    /**
     * handleOptimize, with `outcome` for how the call settles. With fewer
     * than two symbols: the validation error, no call, nothing else changed.
     * Otherwise one call, made while loading with no error shown; then the
     * payload replaces the result, or a throw sets the message and keeps the
     * previous result; loading ends false either way.
     */
    method HandleOptimize(outcome: OptimizeOutcome) returns (calls: seq<OptimizeRequest>, ghost shownDuringCall: seq<(bool, Option<string>)>)
      modifies this`loading, this`error, this`result
      ensures |old(symbols)| < MinSymbols ==>
        && calls == [] && shownDuringCall == []
        && error == Some(TooFewSymbols) && loading == old(loading) && result == old(result)
      ensures |old(symbols)| >= MinSymbols ==>
        && calls == [OptimizeRequest(symbols, OptimizePeriod)]
        && shownDuringCall == [(true, None)]
        && !loading
        && match outcome {
             case Resolved(data) => result == Some(data) && error == None
             case Rejected(e) => result == old(result) && error == Some(FailureMessage(e))
           }
    {
      if |symbols| < MinSymbols {
        error := Some(TooFewSymbols);
        return [], [];
      }
      loading := true;
      error := None;
      calls := [OptimizeRequest(symbols, OptimizePeriod)];
      shownDuringCall := [(loading, error)];
      match outcome {
        case Resolved(data) =>
          result := Some(data);
        case Rejected(e) =>
          error := Some(FailureMessage(e));
      }
      loading := false;
    }
  }

  /**
   * Optimizing from a freshly opened view, whose three initial symbols pass
   * the guard: the call is made with them and the outcome alone decides the
   * final error and result.
   */
  method OptimizeInitial(outcome: OptimizeOutcome)
    returns (calls: seq<OptimizeRequest>, error: Option<string>, result: Option<OptimizeResult>, loading: bool)
    ensures calls == [OptimizeRequest(InitialSymbols, OptimizePeriod)] && !loading
    ensures outcome.Resolved? ==> result == Some(outcome.data) && error == None
    ensures outcome.Rejected? ==> result == None && error == Some(FailureMessage(outcome.responseError))
  {
    var view := new PortfolioOptimizer();
    var made, _ := view.HandleOptimize(outcome);
    calls := made;
    error, result, loading := view.error, view.result, view.loading;
  }

  /**
   * With the client module as shipped, optimizing the initial three symbols
   * always ends in "Optimization failed" with no result and no longer loading.
   */
  method ShippedOptimize() returns (error: Option<string>, result: Option<OptimizeResult>, loading: bool)
    ensures error == Some(OptimizationFailed) && result == None && !loading
  {
    var _, e, r, l := OptimizeInitial(ShippedClientOutcome);
    error, result, loading := e, r, l;
  }
}
