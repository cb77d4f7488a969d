/** The stock list: a fixed table of quotes and the filter buttons above it. */
module Stocks {

  import opened Seqs

  datatype Stock = Stock(symbol: string, name: string, price: real, change: real, prediction: string)

  /** The quotes shown by the list, in display order. */
  const StocksData: seq<Stock> := [
    Stock("AAPL", "Apple Inc.", 182.52, 1.25, "up"),
    Stock("MSFT", "Microsoft Corp.", 337.18, 2.34, "up"),
    Stock("GOOGL", "Alphabet Inc.", 131.86, -0.75, "down"),
    Stock("AMZN", "Amazon.com Inc.", 127.74, 1.05, "up"),
    Stock("NVDA", "NVIDIA Corp.", 416.1, 5.23, "up"),
    Stock("META", "Meta Platforms Inc.", 297.74, -1.32, "down"),
    Stock("TSLA", "Tesla Inc.", 237.49, -3.21, "down"),
    Stock("JPM", "JPMorgan Chase & Co.", 146.77, 0.87, "up"),
    Stock("V", "Visa Inc.", 235.44, 0.54, "up")
  ]

  /** The filter the list starts with. */
  const InitialFilter: string := "all"

  /** The test a filter applies to each stock. */
  function Keep(filter: string): (r: Stock -> bool)
    ensures forall s :: r(s) <==>
      (filter == "gainers" ==> s.change > 0.0) &&
      (filter == "losers" ==> s.change < 0.0) &&
      (filter == "predictions" ==> s.prediction == "up")
  {
    (stock: Stock) =>
      if filter == "gainers" then stock.change > 0.0
      else if filter == "losers" then stock.change < 0.0
      else if filter == "predictions" then stock.prediction == "up"
      else true
  }

  /** `filteredStocks`: the stocks the current filter keeps, in order. */
  function FilteredStocks(stocks: seq<Stock>, filter: string): (r: seq<Stock>)
    ensures |r| <= |stocks|
    ensures forall s :: s in r ==> s in stocks
    ensures filter == "gainers" ==> forall s :: s in r ==> s.change > 0.0
    ensures filter == "losers" ==> forall s :: s in r ==> s.change < 0.0
    ensures filter == "predictions" ==> forall s :: s in r ==> s.prediction == "up"
  {
    Select(stocks, Keep(filter))
  }

  /** A stock is listed exactly when it is in the table and passes the filter;
      the listing keeps the table's order. */
  lemma FilterMembership(stocks: seq<Stock>, filter: string, s: Stock)
    ensures s in FilteredStocks(stocks, filter) <==> s in stocks && Keep(filter)(s)
    ensures IsSubsequence(FilteredStocks(stocks, filter), stocks)
    ensures multiset(FilteredStocks(stocks, filter))[s] == if Keep(filter)(s) then multiset(stocks)[s] else 0
  {
    SelectMultiplicity(stocks, Keep(filter), s);
    if s in stocks && Keep(filter)(s) {
      SelectKeepsMatches(stocks, Keep(filter), s);
    }
    SelectIsSubsequence(stocks, Keep(filter));
  }

  /** "gainers" lists exactly the rising stocks, "losers" exactly the
      falling ones, so an unchanged stock is in neither; "predictions" lists
      exactly those forecast to go up. */
  lemma NamedFilters(stocks: seq<Stock>, s: Stock)
    requires s in stocks
    ensures s in FilteredStocks(stocks, "gainers") <==> s.change > 0.0
    ensures s in FilteredStocks(stocks, "losers") <==> s.change < 0.0
    ensures s.change == 0.0 ==>
      s !in FilteredStocks(stocks, "gainers") && s !in FilteredStocks(stocks, "losers")
    ensures s in FilteredStocks(stocks, "predictions") <==> s.prediction == "up"
  {
    FilterMembership(stocks, "gainers", s);
    FilterMembership(stocks, "losers", s);
    FilterMembership(stocks, "predictions", s);
  }

  /** Any other filter value, the initial "all" included, lists every stock. */
  lemma {:induction false} OtherFiltersKeepAll(stocks: seq<Stock>, filter: string)
    requires filter != "gainers" && filter != "losers" && filter != "predictions"
    ensures FilteredStocks(stocks, filter) == stocks
  {
    if stocks != [] {
      OtherFiltersKeepAll(stocks[1..], filter);
      assert stocks == [stocks[0]] + stocks[1..];
    }
  }

  /** On the shipped table the list starts with all nine quotes. */
  lemma InitialListing()
    ensures FilteredStocks(StocksData, InitialFilter) == StocksData
    ensures |StocksData| == 9
  {
    OtherFiltersKeepAll(StocksData, InitialFilter);
  }
}
