/** The documents of the five collections the handlers touch, the fund
    detail (computed live, never stored), and the keyed lookups the handlers
    run on them. Only the fields a handler filters or
    sorts on are named; every other scraped field is kept in `fields`. */
module Records {
  import opened Outcomes
  import Collection

  type Fields = map<string, string>

  /** `stocks` collection: one document per ticker `code`. */
  datatype Stock = Stock(code: string, fields: Fields)

  /** `hits` collection (the v2 crawl), indexed by the sub-field
      `_highlightResult.tickerSymbolPrefix.value`. */
  datatype Hit = Hit(tickerSymbolPrefix: string, fields: Fields)

  /** `fundamentalistAnalysis` collection, looked up by `code`. */
  datatype Analysis = Analysis(code: string, fields: Fields)

  /** `stocksSheet` collection: a time series, several documents per `codigo`,
      each dated by `data` (an ordinal: later dates are larger). */
  datatype SheetQuote = SheetQuote(codigo: string, data: int, fields: Fields)

  /** `googleSearch` collection: search results stored under `symbol`. */
  datatype SearchHit = SearchHit(symbol: string, fields: Fields)

  /** A fund's detail, computed live and never stored. */
  datatype Fund = Fund(fields: Fields)

  function StockCode(s: Stock): string { s.code }

  function AnalysisCode(a: Analysis): string { a.code }

  /** `stocks.find_one({'code': code})`, as a position. */
  function StockIndex(stocks: seq<Stock>, code: string): Option<nat>
  {
    Collection.FirstIndex(stocks, (s: Stock) => s.code == code)
  }

  /** `fundamentalistAnalysis.find_one({'code': code})`, as a position. */
  function AnalysisIndex(analyses: seq<Analysis>, code: string): Option<nat>
  {
    Collection.FirstIndex(analyses, (a: Analysis) => a.code == code)
  }

  /** `hits.find_one({'_highlightResult.tickerSymbolPrefix.value': code})`, as a position. */
  function HitIndex(hits: seq<Hit>, code: string): Option<nat>
  {
    Collection.FirstIndex(hits, (h: Hit) => h.tickerSymbolPrefix == code)
  }

  /** `googleSearch.find({'symbol': symbol})`. */
  function SearchHitsFor(hits: seq<SearchHit>, symbol: string): seq<SearchHit>
  {
    Collection.Filter(hits, (h: SearchHit) => h.symbol == symbol)
  }

  /** Results saved after earlier ones are listed after them. */
  lemma SearchHitsForAppend(a: seq<SearchHit>, b: seq<SearchHit>, symbol: string)
    ensures SearchHitsFor(a + b, symbol) == SearchHitsFor(a, symbol) + SearchHitsFor(b, symbol)
  {
    Collection.FilterAppend(a, b, (h: SearchHit) => h.symbol == symbol);
  }

  /** One saved result with the symbol is listed on its own. */
  lemma SearchHitsForOne(h: SearchHit, symbol: string)
    requires h.symbol == symbol
    ensures SearchHitsFor([h], symbol) == [h]
  {
  }

  /** A miss followed by an append: the appended analysis is the one found. */
  lemma AnalysisIndexAppend(analyses: seq<Analysis>, code: string, a: Analysis)
    requires AnalysisIndex(analyses, code).None? && a.code == code
    ensures AnalysisIndex(analyses + [a], code) == Some(|analyses|)
  {
    var t := analyses + [a];
    var r := AnalysisIndex(t, code);
    assert t[|analyses|].code == code;
  }

  /** `stocksSheet.find_one({'codigo': codigo}, sort=[('data', DESCENDING)])`:
      the most recently dated quote for `codigo`; among quotes with the same
      latest date, the first in store order. */
  function LatestQuote(quotes: seq<SheetQuote>, codigo: string): (r: Option<SheetQuote>)
    ensures r.Some? ==> r.value in quotes && r.value.codigo == codigo
    ensures r.Some? ==> forall q :: q in quotes && q.codigo == codigo ==> q.data <= r.value.data
    ensures r.None? <==> forall q :: q in quotes ==> q.codigo != codigo
  {
    if quotes == [] then None
    else
      var rest := LatestQuote(quotes[1..], codigo);
      assert forall q :: q in quotes ==> q == quotes[0] || q in quotes[1..];
      if quotes[0].codigo == codigo && (rest.None? || rest.value.data <= quotes[0].data) then
        Some(quotes[0])
      else
        rest
  }

  /** Two PETR4 quotes dated 2023-01-01 and 2023-02-01: the February one is served. */
  lemma LatestQuoteExample(jan: Fields, feb: Fields)
    ensures LatestQuote([SheetQuote("PETR4", 20230101, jan), SheetQuote("PETR4", 20230201, feb)], "PETR4")
         == Some(SheetQuote("PETR4", 20230201, feb))
  {
  }
}
